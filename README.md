# goHive5 client codecs in Dafny

This project models the part of goHive5, a Go client for the TheHive 5 REST
API, that runs before a request is sent and after a response has arrived. It
covers:

- the TLP, PAP and severity label codecs;
- the millisecond timestamp and duration codecs;
- the inference of custom-field types;
- the query-stage builder, and the fixed stage sequences of the look-up helpers;
- the request-body marshallers and response unmarshallers of cases, alerts,
  observables, tasks, timelines, templates, comments, procedures and users;
- the base-URL normalisation done at login.

Layout, one module per file:

- `Wrappers`: `Option` and `Result`.
- `Text`: ASCII lower-casing, and decimal text with its parser.
- `Util`: times, durations, the three enumerations, custom-field inference,
  HTTP method names and the response-status check.
- `Wire`: an abstract JSON value, and a request payload as a map from member
  name to value, with encoding/json's omitempty rules.
- `Query`: search stages, their encoding and its inverse.
- One module per resource file.
  - Request types whose marshaller changes its receiver are classes:
    `HiveUpdateCase`, `HiveAlert`, `HiveUpdateAlert`, `CustomField` and
    `Observable`. Their methods carry `modifies` clauses for exactly the fields
    the Go code assigns.
  - Request types whose marshaller only reads its receiver are datatypes with
    a `MarshalJSON` function. `HiveCase` and `CaseTemplate` are datatypes too:
    their marshallers change only the custom fields they hold, so
    `MarshalJSON` returns the value the marshaller leaves together with its
    result.
  - The elements of the slices a request holds (custom fields, observables,
    pages, tasks, sharing parameters, procedures) are values. encoding/json
    runs each element's own marshaller in slice order and stops at the first
    error. This is modelled as a pass over the values (`Alert.EncodedFields`,
    `Observable.EncodedObservables`) that gives the elements it leaves and the
    error.
  - Every `*Response` type is a datatype. Its `UnmarshalJSON` takes encoding/json's
    reading of the bytes into the shadow record, or the error, and returns the
    receiver's new value with the error.
  - Each decoder's contract is a `...DecodedFrom` predicate. It says what every
    field of the result means: a time is the instant its count denotes (0
    meaning unset), a duration is its count of milliseconds (modulo 2^64), and
    any field the Go code never assigns keeps the receiver's prior value.

Time is an instant in Unix milliseconds. Go's zero `time.Time` is the
instant -62135596800000 ms. That is why the 0 that a `convertInt64ToTime`
reads means "unset" and never the epoch, and why a zero time whose
`UnixMilli()` is sent unguarded travels as a large negative number.

## Model

| member | source | states |
|---|---|---|
| Text.ItoaRoundTrip | case.go:650 | the decimal text that strconv.Itoa gives for a case number parses back to that number |
| Text.ItoaInjective | case.go:650 | different case numbers never produce the same idOrName text |
| Text.ItoaCanonical | case.go:650 | strconv.Itoa writes canonical decimal text: an optional minus, no leading zero, never "-0" |
| Text.CanonicalIsItoa | case.go:650 | canonical text that reads as n is exactly the text Itoa writes for n, so a contract giving canonical text and its value pins the string down completely |
| Util.Wrap64 | util.go:189-195 | the result is the int64 that Go's wrap-around gives: congruent to the input modulo 2^64, and equal to it when it fits |
| Util.EncodeTime | case.go:50-57 | the int64 sent for a time is 0 exactly for the unset time and the epoch, and otherwise its UTC millisecond count |
| Util.EncodeTimeRef | task.go:38-52 | the *int64 sent for a time is nil exactly when the time is unset, and otherwise its UTC millisecond count |
| Util.Unix | alert.go:454 | whole seconds rounded down: the result times 1000 is within the 1000 ms at or before the instant |
| Util.ConvertInt64ToTime | util.go:180-186 | 0 decodes to the unset time, never to the epoch; any other count decodes to the instant that many ms after the epoch, whose UnixMilli gives the count back |
| Util.TimeOfUnique | util.go:180-186 | a count denotes at most one time, so the decoding is fully determined by what it must mean |
| Util.DecodeEncodeTime | util.go:180-186 | decoding what is encoded gives the time back, except the epoch, which comes back as unset |
| Util.ConvertInt64ToDuration | util.go:189-195 | the result is the count of milliseconds, wrapped to int64 nanoseconds; 0 gives the zero duration |
| Util.DurationOfUnique | util.go:189-195 | a count denotes at most one int64 duration |
| Util.DurationWrapsToZero | util.go:194 | 2^58 ms overflows to the zero duration |
| Util.Severity.String | util.go:210-224 | codes 1..4 give exactly "Low", "Medium", "High" and "Critical", the lower-case labels once lower-cased; any other code gives the empty string |
| Util.Severity.FromString | util.go:226-242 | never fails; a label in {low, medium, high, critical}, in any case, gives its code 1..4; every other label gives 0 |
| Util.SeverityRoundTrip | util.go:210-242 | reading back the name of a code 1..4 gives that code |
| Util.SeverityIgnoresCase | util.go:228 | a label and its lower-case form read the same |
| Util.Tlp.String | util.go:295-311 | codes 0..4 name clear, green, amber, amber+strict and red; others give "" |
| Util.Tlp.FromString | util.go:313-333 | succeeds exactly on the five labels, in any case, with the code whose name the label is; otherwise an UnknownTlp error and the receiver is unchanged |
| Util.TlpRoundTrip | util.go:295-333 | reading back the name of a code 0..4 gives that code |
| Util.TlpIgnoresCase | util.go:315 | a label and its lower-case form are accepted alike and give the same code |
| Util.Pap.String | util.go:259-273 | codes 0..3 name clear, green, amber and red; others give "" |
| Util.Pap.FromString | util.go:275-293 | succeeds exactly on the four labels, in any case, with the matching code; otherwise an UnknownPap error and the receiver is unchanged |
| Util.PapRoundTrip | util.go:259-293 | reading back the name of a code 0..3 gives that code |
| Util.PapIgnoresCase | util.go:277 | a label and its lower-case form are accepted alike and give the same code |
| Util.DetectCustomFieldType | util.go:335-367 | fails exactly for values of no known shape, with the error naming the value; otherwise the tag is one of the six types and fits the value's shape, and a string becomes "url" exactly when it parses as a request URI |
| Util.DetectedTagIsUnique | util.go:335-367 | for a non-string value, the inferred tag is the only tag that fits it |
| Util.MethodString | util.go:165-177 | the four known methods give their lower-case names; anything else gives "unknown" |
| Util.CheckStatus | util.go:54-63 | a 2xx status passes the body through; any other status fails, with the decoded API error when the error body decodes, and with a decoding error when it does not |
| Query.StageJson | case.go:367-392 | every stage carries its name under "_name", and no member it writes is null |
| Query.CreateSearchQuery | util.go:137-140 | the query is an object with the single member "query", holding one element per stage |
| Query.FilterRoundTrip | case.go:446-453 | reading an encoded filter gives the filter back |
| Query.ScopeRoundTrip | case.go:456-459 | reading an encoded scope gives the scope back |
| Query.StageRoundTrip | case.go:367-392 | reading an encoded stage gives every operator back |
| Query.StagesRoundTrip | util.go:137-140 | reading the encoded stage list gives the same stages back, in order |
| Query.CreateSearchQueryRoundTrip | util.go:137-140 | the query document decodes to exactly the stage sequence it was built from |
| Query.CreateSearchQueryInjective | util.go:137-140 | two stage sequences that encode to the same document are equal |
| Query.CustomFieldPath | case.go:512 | the filter field is "customFields." followed by the lower-cased field name |
| Case.HiveCase.MarshalJSON | case.go:41-103 | fails exactly on an unknown TLP or PAP label (TLP first, case unchanged) or when a custom field's encoder fails, with the first failing field's error. Otherwise the custom fields are the ones the encoders left (typed and converted up to the one that stopped) and nothing else changes. On success the payload is the updated case's body |
| Case.HiveCaseBody | case.go:88-101 | the payload's dates are UTC ms (absent when unset); each given TLP/PAP/severity label is its code, 0 included, because the codes are pointers; the title is always there; custom fields and tasks are the arrays of their elements' encodings, present exactly when the pointer is set |
| Case.PageNullCategory | case.go:105-110 | a page with nil category and order is sent with "category": null and no "order" |
| Case.ClearTlpIsSentAsZero | case.go:69-76 | a "clear" TLP (in any case) is sent as 0, not dropped |
| Case.HiveUpdateCase.MarshalJSON | case.go:137-212 | fails exactly on an unknown TLP, PAP or impact label, in that order, with the receiver unchanged, or when a custom field's encoder fails, with its error. Past the labels ImpactStatus becomes "WithImpact"/"NoImpact" (an empty one stays empty) with the same lower-case form, and the custom fields are the ones the encoders left. On success the payload is the updated receiver's body |
| Case.HiveUpdateCase.RewriteImpact | case.go:185-194 | a known impact label, in any case, is rewritten to its canonical spelling (CanonicalImpact); an unknown one is an error naming it and stays as it was |
| Case.HiveUpdateCase.EncodeFields | case.go:196-211 | the custom fields become what encoding/json's pass over them leaves, and the error is the one it stops with |
| Case.UpdateCaseBodyHolds | case.go:196-211 | the update payload carries dates, codes and the impact status with their meanings, and the custom fields as the array of their encodings exactly when the pointer is set |
| Case.CanonicalImpact | case.go:185-194 | an accepted impact status comes out as "", "WithImpact" or "NoImpact": empty exactly when it was empty, with the same lower-case form |
| Case.ImpactCanonicalIsFixed | case.go:185-194 | the canonical spellings are accepted and kept as they are, and they are the only accepted values the rewrite keeps unchanged |
| Case.CanonicalImpactIdempotent | case.go:185-194 | rewriting an accepted impact status twice is rewriting it once |
| Case.GetCaseStatusOptions | case.go:496-506 | [listCaseStatus, sort by stage descending]; each stage carries its one operator and no other |
| Case.FindCaseByCustomField | case.go:509-520 | [listCase, filter on the lower-cased custom-field path equal to the value, sort by _updatedAt descending]; each stage carries its one operator and no other |
| Case.FindCaseByCustomFieldIgnoresCase | case.go:512 | the custom-field name is matched without regard to case |
| Case.GetCasesTimed | case.go:633-645 | [listCase, a filter stage with only gte set, on _updatedAt with only a value]; the value is the canonical decimal text of the time's millisecond count |
| Case.GetCaseAlerts | case.go:649-659 | [getCase with only idOrName, the canonical decimal text of the case number, alerts] |
| CaseResponse.HiveCaseResponse.UnmarshalJSON | case.go:309-358 | a decoding error leaves the receiver as it was; otherwise every field is what the shadow says: eleven dates as times (0 unset), six durations as ms counts, codes and labels copied |
| CaseResponse.CaseDecodedFromDetermines | case.go:309-358 | that description pins the decoded case down completely |
| CaseResponse.CaseStatusResponse.UnmarshalJSON | case.go:426-443 | only eight fields are assigned; UpdatedAt, UpdatedBy, CreatedBy and Description keep the receiver's prior values |
| CaseResponse.StatusDecodedFromDetermines | case.go:426-443 | shadow and prior receiver pin the decoded status option down completely |
| Alert.HiveAlert.MarshalJSON | alert.go:201-261 | an empty type becomes "alert" on the receiver, even when the call then fails. An unknown TLP or PAP label fails first, TLP first, with the slices untouched; then the custom fields' encoders run, then the observables', stopping at the first element that fails with its error; the slices end as those passes leave them. On success the payload is the receiver's body |
| Alert.HiveAlert.EncodeSlices | alert.go:245-259 | the custom fields and observables become what the passes over them leave, the observables untouched when a custom field failed, and the error is the first one |
| Alert.EncodedSlices | alert.go:245-259 | the passes over an alert's slices go through exactly when no custom field stops and no observable is rejected |
| Alert.EncodedAlert | alert.go:201-261 | the alert encodes exactly when both labels are known and every element encodes; a refused label leaves both slices as they were |
| Alert.AlertBodyHolds | alert.go:233-260 | the alert payload always carries the type; the date is sent as UTC ms, absent when unset; each code is sent when nonzero and dropped at 0 ("clear", or an unknown severity), because the codes are ints with omitempty; custom fields, observables and procedures are the arrays of their elements' encodings, present exactly when the pointer is set |
| Alert.HiveUpdateAlert.MarshalJSON | alert.go:264-330 | the same type default and label errors as for a new alert, with the custom fields untouched on a label error; past the labels the custom fields are what their pass leaves, and the call fails exactly when a field's encoder fails, with its error |
| Alert.UpdateAlertBodyHolds | alert.go:301-329 | the update payload carries the type, both dates and the codes with the same meanings, and the custom fields as the array of their encodings, left out when there are none |
| Alert.CustomField.MarshalJSON | alert.go:346-372 | a missing type is inferred and stored, and an inference failure aborts with the receiver unchanged. A string field's value becomes its %s text. Any value that is not a string then panics. Otherwise the payload has the lower-cased name and the string value |
| Alert.CustomField.MarshalJSONCorrected | alert.go:346-372 | the same inference and conversion, with no panic: the new field is the typed one; it fails exactly when no type can be found or a date is outside the years 0..9999, and otherwise sends the value as JSON of its own shape; an inferred type always matches the shape that is sent |
| Alert.ResolvedType | alert.go:349-356 | the type is never empty afterwards; an inferred one is one of the six types and fits the value |
| Alert.InferredFieldShaped | alert.go:349-361 | a field left for inference gets a type that fits its value, and its value is sent in the JSON shape that type names |
| Alert.TypedIsStable | alert.go:346-372 | a field whose encoding went through encodes again without failing and without changing |
| Alert.FirstStop | alert.go:30 | the position of the first custom field whose encoder fails: every field before it encodes, and the one at it fails |
| Alert.EncodedFields | alert.go:30 | the pass over a custom-field slice keeps its length and fails exactly when some field's encoder fails, with the first such field's error |
| Alert.EncodedFieldsAt | alert.go:30 | after the pass, each field up to and including the one that stopped is typed, and every later field is unchanged |
| Alert.EncodedFieldsIdempotent | alert.go:30 | encoding the same custom fields a second time changes nothing |
| Alert.ConvertedValue | alert.go:358-361 | a string field always ends with a string value; other fields, and values that are strings already, keep their value |
| Alert.IntegerFieldPanics | alert.go:346-372 | an integer field with its type left to inference panics as written, while the corrected encoding sends the number |
| Alert.SecondsBound | alert.go:454 | the timed alert bound is canonical decimal text of a multiple of 1000 that is within the 1000 ms at or before the instant |
| Alert.FindAlertsByFieldTimed | alert.go:452-466 | [listAlert, filter lower-cased field = value, filter _updatedAt ≥ the seconds bound]; each stage carries its one operator and no other |
| Alert.GetAlertsTimed | alert.go:469-481 | [listAlert, filter _updatedAt ≥ the seconds bound]; each stage carries its one operator and no other |
| Alert.FindAlertsByCustomField | alert.go:485-498 | [listAlert, filter on the lower-cased custom-field path equal to the value]; each stage carries its one operator and no other |
| Alert.AlertLookupsIgnoreCase | alert.go:452-498 | both field look-ups ignore the case of the field name |
| AlertResponse.HiveAlertResponse.UnmarshalJSON | alert.go:149-198 | a decoding error leaves the receiver; otherwise seven dates as times, four durations as ms counts, all else copied |
| AlertResponse.AlertDecodedFromDetermines | alert.go:149-198 | that description pins the decoded alert down completely |
| AlertResponse.CustomFieldResponse.UnmarshalJSON | alert.go:409-432 | the two timestamps as times, the other twelve fields copied |
| AlertResponse.FieldDecodedFromDetermines | alert.go:409-432 | that description pins the decoded declaration down completely |
| Observable.Observable.MarshalJSON | observable.go:34-86 | fails exactly on an unknown TLP or PAP label, TLP first, with the receiver unchanged; a set sighting time makes Sighted true, and otherwise Sighted keeps the caller's value; on success the payload is the observable's body |
| Observable.MarkedIsSighted | observable.go:69-71 | an accepted observable with a sighting time is sent with sighted = true |
| Observable.FirstRejected | alert.go:35 | the position of the first observable with an unknown label: every one before it is accepted, and the one at it is rejected |
| Observable.EncodedObservables | alert.go:35 | the pass over an alert's observables keeps their number and fails exactly when one has an unknown label, with the first one's error |
| Observable.EncodedObservablesAt | alert.go:35 | after the pass, each observable before the rejected one is marked, and it and every later one are unchanged |
| Observable.EncodedObservablesIdempotent | alert.go:35 | encoding the same observables a second time changes nothing |
| Observable.ObservableBodyHolds | observable.go:62-85 | startDate and sightedAt are sent as UTC ms exactly when set. Codes are sent exactly when a label is given, 0 included, because they are pointers. A sent sightedAt comes with sighted = true |
| Observable.GetObservableTypes | observable.go:246-256 | [listObservableType, sort by _updatedAt descending]; each stage carries its one operator and no other |
| Observable.GetCaseObservablesFiltered | observable.go:354-365 | [getCase with the canonical decimal case number, observables, filter field = value]; each stage carries its one operator and no other |
| ObservableResponse.ObservableResponse.UnmarshalJSON | observable.go:144-174 | four dates as times; TLP/PAP codes, labels and everything else copied |
| ObservableResponse.ObservableDecodedFromDetermines | observable.go:144-174 | that description pins the decoded observable down completely |
| ObservableResponse.ObservableTypeResponse.UnmarshalJSON | observable.go:194-209 | the creation time as a time, the other five fields copied |
| ObservableResponse.TypeDecodedFromDetermines | observable.go:194-209 | that description pins the decoded type down completely |
| Task.CaseTask.MarshalJSON | task.go:30-64 | startDate, endDate and dueDate are each sent as UTC ms exactly when set; the title always; order exactly when given; the receiver is only read |
| Task.CaseTaskBody | task.go:53-63 | the task payload's date, title and order members carry those meanings |
| Task.TaskLog.MarshalJSON | task.go:75-101 | startDate and includeInTimeline are each sent as UTC ms exactly when set; the message is always sent; attachments are sent exactly when given |
| Task.GetTaskLogs | task.go:371-381 | [getTask with the task id, logs, sort by _createdAt ascending]; each stage carries its one operator and no other |
| Task.GetCaseTasks | task.go:385-396 | [getCase with the canonical decimal case number, tasks, sort by _createdAt ascending]; each stage carries its one operator and no other |
| TaskResponse.TaskLogResponse.UnmarshalJSON | task.go:136-156 | the update time, date and timeline date as times, the rest copied; CreatedAt is never assigned and keeps its prior value |
| TaskResponse.LogDecodedFromDetermines | task.go:136-156 | shadow and prior receiver pin the decoded log down completely |
| TaskResponse.CaseTaskResponse.UnmarshalJSON | task.go:203-230 | the five dates as times, every other field copied |
| TaskResponse.TaskDecodedFromDetermines | task.go:203-230 | that description pins the decoded task down completely |
| Timeline.TimelineEvent.MarshalJSON | timeline.go:160-184 | date and endDate are each sent as UTC ms exactly when set; title and description only when non-empty |
| Timeline.GetTimeline | timeline.go:209-233 | a fetch or decoding error is returned as is; otherwise the wrapper's events come back unchanged and in order |
| Timeline.GetTimelineEvent | timeline.go:237-251 | fails with the timeline's error, or with "no event found" exactly when no entry has the id; otherwise returns the details of the first entry with that entity id |
| TimelineResponse.TimelineEventResponse.UnmarshalJSON | timeline.go:43-61 | four dates as times, the strings copied |
| TimelineResponse.EventDecodedFromDetermines | timeline.go:43-61 | that description pins the decoded event down completely |
| TimelineResponse.CustomEvent.UnmarshalJSON | timeline.go:131-149 | four dates as times, the strings copied |
| TimelineResponse.CustomEventDecodedFromDetermines | timeline.go:131-149 | that description pins the decoded custom event down completely |
| TimelineResponse.FullTimelineResponse.UnmarshalJSON | timeline.go:82-96 | the date as a time; kind, entity, entity id and details copied |
| TimelineResponse.EntryDecodedFromDetermines | timeline.go:82-96 | that description pins the decoded entry down completely |
| Template.CaseTemplate.MarshalJSON | template.go:29-62 | fails exactly on an unknown TLP or PAP label, TLP first, with the template unchanged, or when a custom field's encoder fails, with its error. Past the labels the custom fields are what their pass leaves and nothing else changes. On success the payload is the updated template's body |
| Template.TemplateBodyHolds | template.go:53-61 | code 0 is dropped, because the codes are ints with omitempty; the severity code is sent as given, exactly when given; the custom fields are always sent, as the array of their encodings or as null when nil |
| Template.ClearTlpIsDropped | template.go:54 | a template with TLP "clear" sends no tlp member |
| Template.CaseTemplate.MarshalValue | template.go:177-188 | the body UpdateCaseTemplate builds from a template value: no label is checked, TLP and PAP are sent as their text (absent when empty), and it fails exactly when the corrected custom-field encoder fails for some field |
| Template.UpdateCaseTemplateSendsLabel | template.go:177-188 | a template with TLP "amber" is sent by UpdateCaseTemplate with "tlp": "amber", where its MarshalJSON sends 2 |
| Template.UpdateCaseTemplateSendsUnknownLabel | template.go:177-188 | a template with TLP "purple" is sent by UpdateCaseTemplate as it is, where its MarshalJSON refuses it |
| TemplateResponse.CaseTemplateResponse.UnmarshalJSON | template.go:117-143 | timestamps as times, codes copied; the three labels and the tasks keep the receiver's prior values |
| TemplateResponse.TemplateDecodedFromDetermines | template.go:117-143 | shadow and prior receiver pin the decoded template down completely |
| Comments.CommentResponse.MarshalJSON | comments.go:32-50 | fails exactly when the update time's year is outside 0..9999, which time.Time refuses to write. Otherwise createdAt is sent as UTC ms exactly when set, updatedAt as time text, the message always, and a nil extraData map as null |
| Comments.CommentResponse.UnmarshalJSON | comments.go:66-83 | the two times as times, every other field copied |
| Comments.CommentDecodedFromDetermines | comments.go:66-83 | that description pins the decoded comment down completely |
| Comments.CreatedAtRoundTrip | comments.go:32-83 | a creation time sent by MarshalJSON decodes back to itself through UnmarshalJSON (the epoch to unset) |
| Comments.GetAlertComments | comments.go:104-114 | [getAlert with the alert id, comments] |
| Comments.GetCaseComments | comments.go:165-176 | [getCase with the canonical decimal case number, comments] |
| Comments.GetCaseCommentsTimed | comments.go:179-192 | the case-comment stages followed by filter _createdAt ≥ the time's ms count, sent as an integer |
| Ttp.Procedure.MarshalJSON | ttp.go:23-38 | occurDate is always sent: UTC ms when set and 0 when unset. Tactic and description are sent only when given. The receiver is only read |
| Ttp.ProcedureResponse.UnmarshalJSON | ttp.go:73-94 | three dates as times; tactic, its label and the other strings copied |
| Ttp.ProcedureDecodedFromDetermines | ttp.go:73-94 | that description pins the decoded procedure down completely |
| Users.UserResponse.UnmarshalJSON | users.go:75-104 | a decoding error assigns nothing; otherwise both timestamps as times and every other field copied |
| Users.UserDecodedFromDetermines | users.go:75-104 | that description pins the decoded user down completely |
| Users.GetVisibleUsers | users.go:124-134 | the single operator-free stage listVisibleUsers |
| Login.TrimRightSlash | login.go:30 | the result is a prefix of the input that does not end in '/', and the rest of the input is all '/' |
| Login.TrimRightSlashIdempotent | login.go:30 | trimming twice is trimming once |
| Login.TrimRightSlashUnique | login.go:30 | the trimmed URL is the only such prefix |
| Login.CreateLogin | login.go:28-38 | the stored URL is the trimmed input and never ends in '/'; the API key is stored unchanged; certificate checks are skipped exactly when not verifying |

## Left out

- HTTP transport (`webRequest`, `webRequestMultiPart`, `http.Client`), the `execute*SearchQuery` helpers and the CRUD wrappers: these are I/O. Response status handling is kept as `Util.CheckStatus`, and fetched or decoded data enter as parameters.
- encoding/json itself: payloads are maps from member name to an abstract JSON value. Member order, byte layout and string escaping are not modelled. The embedded `Alias` struct is read as "the outer field wins".
- Decoding bytes into a shadow record: each `UnmarshalJSON` takes the outcome of that step (`Result<Shadow, string>`) as a parameter.
- `*Response.UnmarshalJSON`: the receiver is a value, and the method returns its new value. In-place update through the pointer, and aliasing of the receiver, are not captured. A JSON `null` input is not modelled either: encoding/json then sets the `shadow` pointer to nil without an error, and every decoder panics on its first field copy. The shadow parameter has no such outcome, so every decoder returns a record for it.
- `time.Time` locations and nanoseconds: a time is a whole number of UTC milliseconds, and `UTC()` is the identity. Times sent through `time.Time`'s own encoder are an opaque `JTimeText` value.
- `strings.ToLower` is ASCII lower-casing. `url.ParseRequestURI` and `fmt.Sprintf("%s", v)` are function parameters (`isRequestURI`, `render`). Float values of custom fields are shape-only (`FFloat32`, `FFloat64`).
- `ApiErrorResponse.Error` formatting and the error texts of `fmt.Errorf` other than those the model returns.
- Empty `struct{}` fields (`ExtraData`, `Reports`) carry no data and are not modelled. Nested records of responses, which the client only passes along (attachments, organisations, links, custom-field lists, tasks inside templates), are carried as JSON values.
- MarshalJSON of `HiveAlert`, `HiveUpdateAlert`, `HiveCase`, `HiveUpdateCase` and `CaseTemplate`: the custom fields and observables in their slices are held as values, not as objects behind pointers. The element updates the Go encoders make (the inferred type, the converted value, the sighted flag) appear in the new slice, but aliasing is not captured: another pointer to the same element does not see them.
- MarshalJSON of `HiveAlert`, `HiveUpdateAlert`, `HiveCase`, `HiveUpdateCase` and `CaseTemplate`, and `CaseTemplate.MarshalValue`, run the corrected custom-field encoder (see Findings). The panic that the encoder as written raises for a value that is not a string is shown only for a single field, by `Alert.IntegerFieldPanics`.
- HiveCaseBody: a set `*[]T` pointer to a nil slice (custom fields, pages, tasks, sharing parameters) is sent by Go as `null`. The model has no nil sequence: `Some([])` stands for a pointer to an empty slice and sends `[]`. The same holds for HiveCase.MarshalJSON.
- UpdateCaseBodyHolds: a set pointer to a nil custom-field, task or sharing-parameter slice is sent by Go as `null`; the model sends `[]`, as for HiveCaseBody. The same holds for HiveUpdateCase.MarshalJSON.
- AlertBodyHolds: a set pointer to a nil custom-field, observable or procedure slice is sent by Go as `null`; the model sends `[]`, as for HiveCaseBody. The same holds for HiveAlert.MarshalJSON.
- CaseTemplate.MarshalValue: the custom fields run the corrected encoder, so a field whose value is not a string (such as `Value: 3` with an empty type) yields a body here, where `UpdateCaseTemplate` as written panics in the custom field's encoder. Only its label handling is the as-written half of the Findings row.
- TemplateBodyHolds: a set pointer to a nil custom-field or tag slice is sent by Go as `null`; the model sends `[]`, as for HiveCaseBody. The same holds for CaseTemplate.MarshalJSON and MarshalValue.
- EncodedFields and EncodedObservables: encoding/json wraps an element marshaller's error in a `*json.MarshalerError` naming the type, once per level of nesting. The model returns the element's own error. A custom field's `options` pointer to a nil map is sent by Go as `null`, but the model has no nil map and sends `{}`.
- CreateSearchQuery: a nil stage slice, as `FindCase(nil)` passes, is sent by Go as `"query": null`. The model has no nil sequence and sends `[]`, which is what an empty non-nil slice gives.
- StageJson: a filter-list pointer to a nil slice is sent by Go as `"_and": null` (or `"_or": null`), and a nil sort map as `[null]`. The model has no nil sequence or map and sends `[]` and `[{}]`. "No member is null" holds only for non-nil slices and maps.
- `GetCaseObservablesFiltered` and `GetCaseObservables` pass a `string` where `SearchQuery.IdOrName` needs a `*string`, and `FindObservable` sets fields `SearchQuery` does not have. These call sites do not compile. The model gives `GetCaseObservablesFiltered` its evident meaning, the case number as idOrName. `GetCaseObservables` and `FindObservable` are not modelled.
- `AddAlertProcedure` and `AddCaseProcedure` unmarshal into a nil pointer. This is transport-side code and is not modelled.
- Severity codes sent by `HiveAlert` and `HiveCase` come from `Severity.FromString`, which never fails. An unknown severity label is therefore sent as code 0 by the case marshallers and dropped by the alert marshallers. No error is modelled for it, because the code raises none.

## Findings

| source | as written | input that shows it | evidently intended | confidence | as-written member | corrected member |
|---|---|---|---|---|---|---|
| alert.go:346-372 | after type inference, the value is asserted to be a Go `string` (`c.Value.(string)`), so every non-string value of a non-string field panics, also when the field sits in an alert, case or template | a `CustomField` with `Value: 3` and an empty `Type`: the type is inferred as "integer", then the assertion panics | send the value as its own JSON (a number for integer fields, a boolean for boolean fields), keeping the inferred type; the alert, case and template marshallers use this encoder | not executed; medium (the outer `Value string` field suggests that only string values were anticipated) | Alert.CustomField.MarshalJSON, Alert.IntegerFieldPanics | Alert.CustomField.MarshalJSONCorrected |
| template.go:177-188 | `UpdateCaseTemplate` passes the template to `json.Marshal` by value, so the pointer-receiver `CaseTemplate.MarshalJSON` never runs: labels are not checked and TLP and PAP go out as text | a template with TLP "amber" is sent with `"tlp": "amber"`; one with TLP "purple" is sent instead of being refused | marshal `&updatedTemplate`, so the label codes are sent and unknown labels are refused, as `CaseTemplate.MarshalJSON` does | not executed; high (the same file defines the marshaller that converts labels to codes, and no other call site uses it) | Template.CaseTemplate.MarshalValue, Template.UpdateCaseTemplateSendsLabel, Template.UpdateCaseTemplateSendsUnknownLabel | Template.CaseTemplate.MarshalJSON |
