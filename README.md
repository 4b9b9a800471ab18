# Course Dates tab and embargo country codes

This project models the decision rules of the learning platform's course "Dates tab"
endpoint and the country-code reference data its embargo feature validates against.

- `DatesSerializers` (`date_serializers.dfy`) models the Dates tab serializers. They decide
  whether a learner has access to a date block: a block that contains gated content, or that
  is a verification deadline, is open only to full-access learners. They normalise a block's
  link: no link gives `''`, otherwise an absolute URI. They also produce each graded
  subsection's problem scores, its `show_grades` flag and its jump-to URL. The serializer
  context is a dictionary. A getter that indexes a missing key raises, and the model returns
  that as a `Result` error. The framework calls (`build_absolute_uri`, `reverse('jump_to', …)`
  and a subsection's `show_grades`) are uninterpreted function-valued fields of `Externals`.
- `DatesView` (`dates_view.dfy`) models `DatesTabView.get`. A user who is neither enrolled nor
  staff gets a 401. Otherwise the learner gets full access only with an enrollment record whose
  mode is `'verified'`. The `TodaysDate` marker is dropped from the date blocks, and the
  serializer context holds the same flags as the payload. `Get` is written the way the view
  does it: a flag set to false and then overwritten, and keys written one by one into the
  context. Its postcondition states the whole response. The lemmas state what the marker
  filter keeps, and in what order.
- `CountryCodes` (`country_codes.dfy`) models the `COUNTRY_CODES` set and validation as
  membership in it. It proves that every member is two upper-case letters, so validation is
  case-sensitive.
- `Wrappers` (`wrappers.dfy`) holds `Option` and `Result`.

`get_url` has no hide-after-due rule: it always builds the URL, and
`JumpUrlDependsOnlyOnLocation` states that nothing but the location, the course key and the
request affects it. The view itself turns away users who are neither enrolled nor staff, with
a 401 (`Get`).

## Model

| member | source | states |
|---|---|---|
| `DatesSerializers.LearnerHasAccess` | lms/djangoapps/course_home_api/dates/v1/serializers.py:79-83 | a block that is neither gated nor a verification deadline is always accessible; a gated or verification-deadline block is accessible exactly when the context's full-access flag is set |
| `DatesSerializers.AbsentFlagDeniesGatedBlocks` | lms/djangoapps/course_home_api/dates/v1/serializers.py:80-83 | with no `learner_is_full_access` entry in the context the flag is false, so every gated block is denied |
| `DatesSerializers.MissingGatedAttributeMeansOpen` | lms/djangoapps/course_home_api/dates/v1/serializers.py:81-83 | a block lacking `contains_gated_content` that is not a verification deadline is open under every context |
| `DatesSerializers.AccessDependsOnlyOnFullAccessFlag` | lms/djangoapps/course_home_api/dates/v1/serializers.py:79-83 | two contexts that agree on the full-access flag give every block the same access |
| `DatesSerializers.Link` | lms/djangoapps/course_home_api/dates/v1/serializers.py:85-89 | a `None` or empty link serialises to `''`; a non-empty link to `build_absolute_uri(link)` on the context's request; it fails exactly when a link is present and the context has no request |
| `DatesSerializers.LinkIgnoresGatingAndFlags` | lms/djangoapps/course_home_api/dates/v1/serializers.py:85-89 | the serialised link depends only on the block's link and the request, not on the block's kind, gating or any flag |
| `DatesSerializers.SerializeDateBlock` | lms/djangoapps/course_home_api/dates/v1/serializers.py:62-89 | a date block's row copies the block's fields and carries its access flag and normalised link; it fails exactly when the link fails |
| `DatesSerializers.ProblemScores` | lms/djangoapps/course_home_api/dates/v1/serializers.py:39-48 | one entry per value of `problem_scores`, same length and order, each copying that score's `earned` and `possible` |
| `DatesSerializers.ShowGrades` | lms/djangoapps/course_home_api/dates/v1/serializers.py:50-51 | `show_grades` is `subsection.show_grades(context['staff_access'])`, and raises exactly when `staff_access` is missing |
| `DatesSerializers.ShowGradesDependsOnlyOnStaffAccess` | lms/djangoapps/course_home_api/dates/v1/serializers.py:50-51 | two contexts with the same `staff_access` give the same `show_grades` |
| `DatesSerializers.JumpUrl` | lms/djangoapps/course_home_api/dates/v1/serializers.py:34-37 | the URL is `build_absolute_uri(reverse('jump_to', [course_key, location]))` whenever the context has a course key and a request; a missing `course_key` raises before a missing `request` |
| `DatesSerializers.JumpUrlDependsOnlyOnLocation` | lms/djangoapps/course_home_api/dates/v1/serializers.py:34-37 | subsections at the same location get the same URL whatever their due date or other fields and whatever the staff flag: no date or staff condition exists |
| `DatesSerializers.SerializeSubsection` | lms/djangoapps/course_home_api/dates/v1/serializers.py:19-51 | a subsection's row holds its fields, its problem scores, its `show_grades` and its URL; it fails exactly when one of the last two does |
| `DatesSerializers.SerializeEach` | lms/djangoapps/course_home_api/dates/v1/serializers.py:96 | a `many=True` list serialises every item in order, or fails with the error of the first item that fails |
| `DatesSerializers.SerializeChapter` | lms/djangoapps/course_home_api/dates/v1/serializers.py:54-59 | a chapter's row has its display name and one row per subsection, in order |
| `DatesSerializers.SerializeDatesTab` | lms/djangoapps/course_home_api/dates/v1/serializers.py:92-100 | the payload has one row per date block and per chapter, in order, and copies `learner_is_full_access` and `user_timezone`; it fails exactly when some row fails |
| `DatesView.WithoutTodaysDate` | lms/djangoapps/course_home_api/dates/v1/views.py:95 | the blocks shown are drawn from the input and none is a `TodaysDate` block |
| `DatesView.WithoutTodaysDateAppend` | lms/djangoapps/course_home_api/dates/v1/views.py:95 | filtering a concatenation is concatenating the filtered parts |
| `DatesView.KeptBlockPosition` | lms/djangoapps/course_home_api/dates/v1/views.py:95 | every non-`TodaysDate` block is kept, at the position right after the kept blocks before it |
| `DatesView.KeptBlocksKeepOrder` | lms/djangoapps/course_home_api/dates/v1/views.py:95 | kept blocks stay in their original relative order |
| `DatesView.WithoutTodaysDateCounts` | lms/djangoapps/course_home_api/dates/v1/views.py:95 | every non-`TodaysDate` block occurs as often in the result as in the input; `TodaysDate` blocks not at all |
| `DatesView.AssembleContext` | lms/djangoapps/course_home_api/dates/v1/views.py:101-104 | the context holds the request, `learner_is_full_access`, `staff_access` equal to the computed staff flag, and `course_key` |
| `DatesView.ViewContextSerializes` | lms/djangoapps/course_home_api/dates/v1/views.py:96-105 | on the view's context every modelled field of the payload serialises without raising, and every block's access is computed from the same full-access flag the payload reports |
| `DatesView.Get` | lms/djangoapps/course_home_api/dates/v1/views.py:64-107 | 401 with "User not enrolled." exactly when the user is neither enrolled nor staff; otherwise 200 with a payload whose `learner_is_full_access` is "an enrollment record with mode 'verified'", whose date rows are the non-`TodaysDate` blocks with access from that flag, and whose subsection rows use `staff_access` and the course key from the context; staff always get a 200, and without an enrollment record the payload's `learner_is_full_access` is false |
| `DatesView.GateAdmitsStaff` | lms/djangoapps/course_home_api/dates/v1/views.py:75-78 | the gate refuses exactly the users who are neither enrolled nor staff; staff pass even when not enrolled |
| `DatesView.FullAccessFromEnrollment` | lms/djangoapps/course_home_api/dates/v1/views.py:85-88 | no enrollment record means no full access; with a record, full access exactly when its mode is `'verified'` |
| `CountryCodes.EveryCodeHasAlpha2Shape` | openedx/core/djangoapps/embargo/fixtures/country_codes.py:6-25 | every member of `COUNTRY_CODES` has exactly two characters, each in `'A'..'Z'` |
| `CountryCodes.ValidationIsCaseSensitive` | openedx/core/djangoapps/embargo/fixtures/country_codes.py:2-25 | a code holding any character outside `'A'..'Z'` fails validation (validation is membership in the set) |
| `CountryCodes.ListedCodes` | openedx/core/djangoapps/embargo/fixtures/country_codes.py:7-23 | `"US"` is valid, and so are the reserved codes `AC`, `AN` and `TA` that the literal includes |
| `CountryCodes.LowerCaseUsRejected` | openedx/core/djangoapps/embargo/fixtures/country_codes.py:23 | the lower-case `"us"` is not valid |

## Left out

- Django REST Framework machinery is not modelled: field declarations, `RetrieveAPIView`, permission classes and JSON rendering. Serializer getters are plain functions, and copied fields are carried as records.
- `reverse`, `build_absolute_uri` and `subsection.show_grades` are uninterpreted functions passed in `Externals`.
- The other lookups the view makes are not modelled: their results, or what the view derives from them, are the arguments of `Get` (the course that `get_course_with_access` returns only feeds `CourseGradeFactory().read` and `get_course_date_blocks`, whose results are the `chapterGrades` and `blocks` arguments). Failures inside them (a 404 from `get_course_with_access`, say) are not modelled. These lookups are `CourseKey.from_string`, `get_course_with_access`, `has_access`, `CourseEnrollment.is_enrolled`, `get_enrollment`, `CourseGradeFactory().read`, `get_course_date_blocks`, `user_timezone_locale_prefs` and `verified_upgrade_deadline_link`.
- The monitoring metrics the view records are left out: they are telemetry with no effect on the response.
- `get_serializer_context` is modelled as holding only `request`. Its `format` and `view` entries are read by nothing modelled here.
- `has_ended` is declared on the Dates tab serializer itself (`serializers.py:97`), with no default, but the data the view builds has no `has_ended` entry. `verified_upgrade_link` is supplied but not declared. The payload row leaves both out, and also the fields of `DatesBannerSerializerMixin`, which is not part of this model.
- `DatesView.Get`: its 200 result assumes that rendering the missing `has_ended` does not raise. Under the framework's usual lookup, a required field missing from a dictionary raises when `serializer.data` is read. The framework's lookup code is not part of this model, so the model does not decide this. `DatesView.ViewContextSerializes` likewise covers only the modelled fields.
- Floating-point scores and dates are opaque values (`real`, `Timestamp`) with no arithmetic on them.
- `LearnerHasAccess`: Python's `or` would return the flag's own value. The model returns its truthiness as a boolean. The two differ only for a non-boolean flag, and the view never stores one.
- `DatesSerializers.Truthy`: context values other than booleans (a course key, a request) are taken as truthy.
- The enrollment record is modelled as a dictionary of strings, because only its `'mode'` entry is read.
- `CountryCodes`: the literal is written as its 25 consecutive runs of codes sharing a first letter. These runs are exactly the literal's 244 members, in its order. Whether the set equals the officially assigned ISO 3166-1 alpha-2 list is not modelled. The literal includes reserved codes such as AC, AN and TA and lacks assigned codes such as EH and PS.
- `course_home_api/serializers.py` is not part of this model: it holds a feature-flag lookup and a call to `serialize_upgrade_info`. The same goes for `course_home_api/urls.py` (URL routing) and the embargo test factories.
