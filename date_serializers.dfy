/** The Dates tab serializers: how one course date block, one graded subsection and one graded
    chapter are turned into the rows of the response, and how the whole payload is assembled.
    Each serializer getter is a pure function of the object being serialized and of the
    serializer context. The context is a dictionary, so a getter that indexes a missing key
    raises; that is the error path of these functions. */
module DatesSerializers {
  import opened Wrappers

  /** Opaque identifiers and values the serializers carry but never inspect. */
  datatype CourseKey = CourseKey(id: string)
  datatype UsageKey = UsageKey(id: string)
  datatype Request = Request(id: string)
  datatype Timestamp = Timestamp(iso: string)

  /** The values the view stores in the serializer context. */
  datatype ContextValue =
    | Flag(flag: bool)
    | CourseKeyValue(courseKey: CourseKey)
    | RequestValue(request: Request)

  /** The serializer context: a dictionary keyed by name. */
  type Context = map<string, ContextValue>

  /** The exceptions a getter can raise on a context that lacks what it reads. */
  datatype SerializerError =
    | KeyError(key: string)          // `context[key]` with `key` absent
    | AttributeError(name: string)   // an attribute read on a value that does not have it

  /** Calls into the web framework and the grades app whose bodies are not part of this model. */
  datatype Externals = Externals(
    buildAbsoluteUri: (Request, string) -> string,      // request.build_absolute_uri(path)
    reverseJumpTo: (ContextValue, UsageKey) -> string,  // reverse('jump_to', args=[course_key, location])
    showGrades: (Subsection, ContextValue) -> bool)     // subsection.show_grades(staff_access)

  const LearnerIsFullAccessKey := "learner_is_full_access"
  const StaffAccessKey := "staff_access"
  const CourseKeyKey := "course_key"
  const RequestKey := "request"

  /** Python truthiness of a context value; objects other than booleans are truthy. */
  predicate Truthy(v: ContextValue) {
    if v.Flag? then v.flag else true
  }

  // ---------------------------------------------------------------------------------------
  // Date blocks

  /** The date-summary classes a block can be an instance of, as far as the rules care. */
  datatype BlockKind = TodaysDate | VerificationDeadline | Other

  /** The fields of a date summary that the serializer copies through unchanged. */
  datatype DateFields = DateFields(
    blockKey: Option<string>, sectionName: Option<string>, assignmentType: Option<string>,
    complete: Option<bool>, date: Timestamp, dateType: string, description: string,
    linkText: string, title: string, extraInfo: string)

  /** A course date block. `containsGatedContent` is `None` when the block has no such
      attribute; `link` is `None` when the block's link is `None`. */
  datatype DateBlock = DateBlock(
    kind: BlockKind, containsGatedContent: Option<bool>, link: Option<string>, fields: DateFields)

  /** One serialized date block. */
  datatype DateSummaryRow = DateSummaryRow(fields: DateFields, learnerHasAccess: bool, link: string)

  /** The `learner_is_full_access` flag as the serializer reads it: false when absent. */
  predicate FullAccessFlag(context: Context) {
    LearnerIsFullAccessKey in context && Truthy(context[LearnerIsFullAccessKey])
  }

  /** A block reserved for full-access learners: it contains gated content (an absent attribute
      counts as not gated) or it is a verification deadline. */
  predicate IsVerifiedGated(block: DateBlock) {
    (block.containsGatedContent.Some? && block.containsGatedContent.value)
    || block.kind == VerificationDeadline
  }

  /** `get_learner_has_access`: an ungated block is open to everyone; a gated one exactly to
      learners whose context says they have full access. */
  function LearnerHasAccess(block: DateBlock, context: Context): (access: bool)
    ensures !IsVerifiedGated(block) ==> access
    ensures IsVerifiedGated(block) ==> (access <==> FullAccessFlag(context))
  {
    !IsVerifiedGated(block) || FullAccessFlag(context)
  }

  /** Python truthiness of a block's link: `None` and `''` are falsy. */
  predicate HasLink(link: Option<string>) {
    link.Some? && link.value != ""
  }

  /** `context.get('request')`, which is `None` when the key is absent. */
  function RequestOf(context: Context): Option<ContextValue> {
    if RequestKey in context then Some(context[RequestKey]) else None
  }

  /** `get_link`: no link gives `''`; a link is made absolute against the context's request.
      Reading `build_absolute_uri` off a missing request (`None`) raises. */
  function Link(ext: Externals, block: DateBlock, context: Context): (r: Result<string, SerializerError>)
    ensures !HasLink(block.link) ==> r == Ok("")
    ensures HasLink(block.link) && RequestOf(context).Some? && RequestOf(context).value.RequestValue? ==>
      r == Ok(ext.buildAbsoluteUri(RequestOf(context).value.request, block.link.value))
    ensures r.Err? <==> HasLink(block.link) && !(RequestOf(context).Some? && RequestOf(context).value.RequestValue?)
  {
    if HasLink(block.link) then
      match RequestOf(context)
      case Some(RequestValue(request)) => Ok(ext.buildAbsoluteUri(request, block.link.value))
      case _ => Err(AttributeError("build_absolute_uri"))
    else
      Ok("")
  }

  /** The row for one date block; the access flag is computed before the link, as the fields
      are declared. */
  function SerializeDateBlock(ext: Externals, block: DateBlock, context: Context): (r: Result<DateSummaryRow, SerializerError>)
    ensures r.Ok? <==> Link(ext, block, context).Ok?
    ensures r.Ok? ==> (&& r.value.fields == block.fields
                       && r.value.learnerHasAccess == LearnerHasAccess(block, context)
                       && r.value.link == Link(ext, block, context).value)
  {
    match Link(ext, block, context)
    case Err(e) => Err(e)
    case Ok(link) => Ok(DateSummaryRow(block.fields, LearnerHasAccess(block, context), link))
  }

  // ---------------------------------------------------------------------------------------
  // Subsection scores

  /** A problem's score, as far as the serializer reads it. Floating-point values are carried
      as opaque numbers: nothing here does arithmetic on them. */
  datatype ProblemScore = ProblemScore(earned: real, possible: real)

  /** One entry of the `problem_scores` list in the response. */
  datatype ScorePair = ScorePair(earned: real, possible: real)

  /** The subsection fields the serializer copies through unchanged. */
  datatype SubsectionFields = SubsectionFields(
    displayName: string, due: Option<Timestamp>, format: Option<string>, graded: bool,
    gradedTotal: ScorePair, percentGraded: real, showCorrectness: string)

  /** A graded subsection. `problemScores` is the ordered dictionary from problem location to
      score, as its (key, value) entries in insertion order. */
  datatype Subsection = Subsection(
    location: UsageKey, problemScores: seq<(UsageKey, ProblemScore)>, fields: SubsectionFields)

  /** One serialized subsection. */
  datatype SubsectionRow = SubsectionRow(
    fields: SubsectionFields, problemScores: seq<ScorePair>, showGrades: bool, url: string)

  /** `get_problem_scores`: one pair per value of the dictionary, in the dictionary's order,
      each copying that score's `earned` and `possible`. */
  function ProblemScores(entries: seq<(UsageKey, ProblemScore)>): (pairs: seq<ScorePair>)
    ensures |pairs| == |entries|
    ensures forall i :: 0 <= i < |entries| ==>
      pairs[i] == ScorePair(entries[i].1.earned, entries[i].1.possible)
  {
    if entries == [] then []
    else [ScorePair(entries[0].1.earned, entries[0].1.possible)] + ProblemScores(entries[1..])
  }

  /** `get_show_grades`: the subsection's own policy applied to `context['staff_access']`. */
  function ShowGrades(ext: Externals, subsection: Subsection, context: Context): (r: Result<bool, SerializerError>)
    ensures r.Err? <==> StaffAccessKey !in context
    ensures r.Ok? ==> r.value == ext.showGrades(subsection, context[StaffAccessKey])
  {
    if StaffAccessKey in context then Ok(ext.showGrades(subsection, context[StaffAccessKey]))
    else Err(KeyError(StaffAccessKey))
  }

  /** `get_url`: always the absolute form of the subsection's jump-to path. No due date, staff
      flag or other subsection field is consulted. */
  function JumpUrl(ext: Externals, subsection: Subsection, context: Context): (r: Result<string, SerializerError>)
    ensures CourseKeyKey !in context ==> r == Err(KeyError(CourseKeyKey))
    ensures CourseKeyKey in context && RequestKey !in context ==> r == Err(KeyError(RequestKey))
    ensures r.Ok? <==> CourseKeyKey in context && RequestKey in context && context[RequestKey].RequestValue?
    ensures r.Ok? ==> r.value == ext.buildAbsoluteUri(context[RequestKey].request,
                                                      ext.reverseJumpTo(context[CourseKeyKey], subsection.location))
  {
    if CourseKeyKey !in context then Err(KeyError(CourseKeyKey))
    else
      var relativePath := ext.reverseJumpTo(context[CourseKeyKey], subsection.location);
      if RequestKey !in context then Err(KeyError(RequestKey))
      else match context[RequestKey]
        case RequestValue(request) => Ok(ext.buildAbsoluteUri(request, relativePath))
        case _ => Err(AttributeError("build_absolute_uri"))
  }

  /** The row for one subsection; `show_grades` is computed before `url`, as declared. */
  function SerializeSubsection(ext: Externals, subsection: Subsection, context: Context): (r: Result<SubsectionRow, SerializerError>)
    ensures r.Ok? <==> ShowGrades(ext, subsection, context).Ok? && JumpUrl(ext, subsection, context).Ok?
    ensures r.Ok? ==> r.value == SubsectionRow(subsection.fields, ProblemScores(subsection.problemScores),
                                               ShowGrades(ext, subsection, context).value,
                                               JumpUrl(ext, subsection, context).value)
  {
    match ShowGrades(ext, subsection, context)
    case Err(e) => Err(e)
    case Ok(showGrades) =>
      match JumpUrl(ext, subsection, context)
      case Err(e) => Err(e)
      case Ok(url) => Ok(SubsectionRow(subsection.fields, ProblemScores(subsection.problemScores), showGrades, url))
  }

  // ---------------------------------------------------------------------------------------
  // Lists, chapters and the whole payload

  /** A list field serialized with `many=True`: every item in order, or the first item's error. */
  function SerializeEach<A, B>(serialize: A -> Result<B, SerializerError>, items: seq<A>): (r: Result<seq<B>, SerializerError>)
    ensures r.Ok? <==> forall i :: 0 <= i < |items| ==> serialize(items[i]).Ok?
    ensures r.Ok? ==> |r.value| == |items| &&
                      forall i :: 0 <= i < |items| ==> r.value[i] == serialize(items[i]).value
    ensures r.Err? ==> exists i :: 0 <= i < |items| && serialize(items[i]).Err? && r.error == serialize(items[i]).error
                                   && forall j :: 0 <= j < i ==> serialize(items[j]).Ok?
  {
    if items == [] then Ok([])
    else
      match serialize(items[0])
      case Err(e) => Err(e)
      case Ok(first) =>
        match SerializeEach(serialize, items[1..])
        case Err(e) =>
          assert forall j :: 1 <= j < |items| ==> items[j] == items[1..][j - 1];
          Err(e)
        case Ok(rest) => Ok([first] + rest)
  }

  /** A graded chapter: a value of `course_grade.chapter_grades`. */
  datatype Chapter = Chapter(displayName: string, sections: seq<Subsection>)

  /** One serialized chapter. */
  datatype SectionRow = SectionRow(displayName: string, subsections: seq<SubsectionRow>)

  /** The row for one chapter: its name and its subsections' rows, in order. */
  function SerializeChapter(ext: Externals, chapter: Chapter, context: Context): (r: Result<SectionRow, SerializerError>)
    ensures r.Ok? <==> forall k :: 0 <= k < |chapter.sections| ==> SerializeSubsection(ext, chapter.sections[k], context).Ok?
    ensures r.Ok? ==> (&& r.value.displayName == chapter.displayName
                       && |r.value.subsections| == |chapter.sections|
                       && forall k :: 0 <= k < |chapter.sections| ==>
                            r.value.subsections[k] == SerializeSubsection(ext, chapter.sections[k], context).value)
  {
    match SerializeEach((s: Subsection) => SerializeSubsection(ext, s, context), chapter.sections)
    case Err(e) => Err(e)
    case Ok(rows) => Ok(SectionRow(chapter.displayName, rows))
  }

  /** The data the view hands to the Dates tab serializer. */
  datatype DatesTabData = DatesTabData(
    courseDateBlocks: seq<DateBlock>, learnerIsFullAccess: bool, userTimezone: Option<string>,
    verifiedUpgradeLink: Option<string>, sectionScores: seq<Chapter>)

  /** The serialized Dates tab, for the fields this serializer declares itself. */
  datatype DatesTabRow = DatesTabRow(
    courseDateBlocks: seq<DateSummaryRow>, learnerIsFullAccess: bool, userTimezone: Option<string>,
    sectionScores: seq<SectionRow>)

  /** The whole payload: the date block rows, the flag and time zone copied from the data,
      and the chapter rows. */
  function SerializeDatesTab(ext: Externals, data: DatesTabData, context: Context): (r: Result<DatesTabRow, SerializerError>)
    ensures r.Ok? <==> (&& (forall i :: 0 <= i < |data.courseDateBlocks| ==> SerializeDateBlock(ext, data.courseDateBlocks[i], context).Ok?)
                        && (forall c :: 0 <= c < |data.sectionScores| ==> SerializeChapter(ext, data.sectionScores[c], context).Ok?))
    ensures r.Ok? ==> && r.value.learnerIsFullAccess == data.learnerIsFullAccess
                      && r.value.userTimezone == data.userTimezone
                      && |r.value.courseDateBlocks| == |data.courseDateBlocks|
                      && (forall i :: 0 <= i < |data.courseDateBlocks| ==>
                            r.value.courseDateBlocks[i] == SerializeDateBlock(ext, data.courseDateBlocks[i], context).value)
                      && |r.value.sectionScores| == |data.sectionScores|
                      && (forall c :: 0 <= c < |data.sectionScores| ==>
                            r.value.sectionScores[c] == SerializeChapter(ext, data.sectionScores[c], context).value)
  {
    match SerializeEach((b: DateBlock) => SerializeDateBlock(ext, b, context), data.courseDateBlocks)
    case Err(e) => Err(e)
    case Ok(blockRows) =>
      match SerializeEach((c: Chapter) => SerializeChapter(ext, c, context), data.sectionScores)
      case Err(e) => Err(e)
      case Ok(sectionRows) => Ok(DatesTabRow(blockRows, data.learnerIsFullAccess, data.userTimezone, sectionRows))
  }

  // ---------------------------------------------------------------------------------------
  // Properties of the getters

  /** With no `learner_is_full_access` entry the flag defaults to false, so every gated block
      is denied. */
  lemma AbsentFlagDeniesGatedBlocks(block: DateBlock, context: Context)
    requires LearnerIsFullAccessKey !in context
    requires IsVerifiedGated(block)
    ensures !LearnerHasAccess(block, context)
  {
  }

  /** A block without a `contains_gated_content` attribute that is not a verification deadline
      is open to every learner, whatever the context says. */
  lemma MissingGatedAttributeMeansOpen(block: DateBlock, context: Context)
    requires block.containsGatedContent.None? && block.kind != VerificationDeadline
    ensures LearnerHasAccess(block, context)
  {
  }

  /** Access depends on the context only through the full-access flag. */
  lemma AccessDependsOnlyOnFullAccessFlag(block: DateBlock, c1: Context, c2: Context)
    requires FullAccessFlag(c1) == FullAccessFlag(c2)
    ensures LearnerHasAccess(block, c1) == LearnerHasAccess(block, c2)
  {
  }

  /** The serialized link depends only on the block's link and the request: neither the
      block's kind, its gating nor any access flag changes it. */
  lemma LinkIgnoresGatingAndFlags(ext: Externals, b1: DateBlock, b2: DateBlock, c1: Context, c2: Context)
    requires b1.link == b2.link
    requires RequestOf(c1) == RequestOf(c2)
    ensures Link(ext, b1, c1) == Link(ext, b2, c2)
  {
  }

  /** `show_grades` depends on the context only through `staff_access`: two contexts that agree
      on it (both lacking it, or both holding the same value) give the same result or error. */
  lemma ShowGradesDependsOnlyOnStaffAccess(ext: Externals, subsection: Subsection, c1: Context, c2: Context)
    requires StaffAccessKey in c1 <==> StaffAccessKey in c2
    requires StaffAccessKey in c1 ==> c1[StaffAccessKey] == c2[StaffAccessKey]
    ensures ShowGrades(ext, subsection, c1) == ShowGrades(ext, subsection, c2)
  {
  }

  /** Two subsections at the same location get the same URL, whatever their due dates, format or
      scores, and whatever the staff flag in the context: there is no hide-after-due rule. */
  lemma JumpUrlDependsOnlyOnLocation(ext: Externals, s1: Subsection, s2: Subsection, c1: Context, c2: Context)
    requires s1.location == s2.location
    requires CourseKeyKey in c1 && CourseKeyKey in c2 && c1[CourseKeyKey] == c2[CourseKeyKey]
    requires RequestKey in c1 && RequestKey in c2 && c1[RequestKey] == c2[RequestKey]
    ensures JumpUrl(ext, s1, c1) == JumpUrl(ext, s2, c2)
  {
  }
}
