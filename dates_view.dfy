/** The Dates tab endpoint: the enrolled-or-staff gate, the learner's full-access flag, the
    removal of the "today" marker from the date blocks, and the serializer context the payload
    is rendered with. The results of the access, enrollment, date-block, grade and locale
    lookups the endpoint makes, or what it derives from them, are the inputs of `Get`. */
module DatesView {
  import opened Wrappers
  import opened DatesSerializers

  /** An enrollment record as the enrollment API returns it: a dictionary, of which only the
      'mode' entry is read. */
  type EnrollmentRecord = map<string, string>

  const VerifiedMode := "verified"
  const NotEnrolledMessage := "User not enrolled."

  /** An HTTP response: a status code and either a message or the serialized payload. */
  datatype Body = Message(text: string) | Payload(tab: DatesTabRow)
  datatype Response = Response(status: int, body: Body)

  /** Who may see the tab: enrolled learners and course staff. */
  predicate MayViewDatesTab(isEnrolled: bool, isStaff: bool) {
    isEnrolled || isStaff
  }

  /** A learner has full access exactly when there is an enrollment record whose mode is
      'verified'. */
  predicate FullAccess(enrollment: Option<EnrollmentRecord>) {
    enrollment.Some? && "mode" in enrollment.value && enrollment.value["mode"] == VerifiedMode
  }

  /** The blocks shown on the tab: every block except the "today" marker, in their order. */
  function WithoutTodaysDate(blocks: seq<DateBlock>): (kept: seq<DateBlock>)
    ensures |kept| <= |blocks|
    ensures forall b :: b in kept ==> b in blocks && b.kind != TodaysDate
  {
    if blocks == [] then []
    else if blocks[0].kind == TodaysDate then WithoutTodaysDate(blocks[1..])
    else [blocks[0]] + WithoutTodaysDate(blocks[1..])
  }

  /** The context the view builds: the framework's context (of which only the request entry is
      modelled) with the full-access flag, the staff flag and the course key written into it. */
  method AssembleContext(request: Request, learnerIsFullAccess: bool, isStaff: bool, courseKey: CourseKey)
    returns (context: Context)
    ensures context.Keys == {RequestKey, LearnerIsFullAccessKey, StaffAccessKey, CourseKeyKey}
    ensures context[RequestKey] == RequestValue(request)
    ensures context[LearnerIsFullAccessKey] == Flag(learnerIsFullAccess)
    ensures context[StaffAccessKey] == Flag(isStaff)
    ensures context[CourseKeyKey] == CourseKeyValue(courseKey)
  {
    context := map[RequestKey := RequestValue(request)];
    context := context[LearnerIsFullAccessKey := Flag(learnerIsFullAccess)];
    context := context[StaffAccessKey := Flag(isStaff)];
    context := context[CourseKeyKey := CourseKeyValue(courseKey)];
  }

  /** `DatesTabView.get`. The lookups the endpoint makes are arguments: `hasStaffAccess` is
      `bool(has_access(user, 'staff', course_key))`, `isEnrolled` is `CourseEnrollment.is_enrolled`,
      `blocks` is `get_course_date_blocks`, `enrollment` is `get_enrollment`, `userTimezone` the
      locale preference, `verifiedUpgradeLink` the upgrade link and `chapterGrades` the values
      of the course grade's `chapter_grades`. */
  method Get(ext: Externals, request: Request, courseKey: CourseKey, hasStaffAccess: bool, isEnrolled: bool,
             blocks: seq<DateBlock>, enrollment: Option<EnrollmentRecord>, userTimezone: Option<string>,
             verifiedUpgradeLink: Option<string>, chapterGrades: seq<Chapter>)
    returns (response: Response)
    ensures response.status == 401 <==> !MayViewDatesTab(isEnrolled, hasStaffAccess)
    ensures response.status == 401 ==> response.body == Message(NotEnrolledMessage)
    ensures response.status != 401 ==> response.status == 200 && response.body.Payload?
    ensures hasStaffAccess ==> response.status == 200
    ensures enrollment.None? && response.body.Payload? ==> !response.body.tab.learnerIsFullAccess
    ensures response.body.Payload? ==>
      var tab := response.body.tab;
      var shown := WithoutTodaysDate(blocks);
      && tab.learnerIsFullAccess == FullAccess(enrollment)
      && tab.userTimezone == userTimezone
      && |tab.courseDateBlocks| == |shown|
      && (forall i :: 0 <= i < |shown| ==>
            && tab.courseDateBlocks[i].fields == shown[i].fields
            && tab.courseDateBlocks[i].learnerHasAccess == (!IsVerifiedGated(shown[i]) || FullAccess(enrollment))
            && tab.courseDateBlocks[i].link ==
                 (if HasLink(shown[i].link) then ext.buildAbsoluteUri(request, shown[i].link.value) else ""))
      && |tab.sectionScores| == |chapterGrades|
      && (forall c :: 0 <= c < |chapterGrades| ==>
            && tab.sectionScores[c].displayName == chapterGrades[c].displayName
            && |tab.sectionScores[c].subsections| == |chapterGrades[c].sections|
            && (forall k :: 0 <= k < |chapterGrades[c].sections| ==>
                  var subsection := chapterGrades[c].sections[k];
                  tab.sectionScores[c].subsections[k] == SubsectionRow(
                    subsection.fields, ProblemScores(subsection.problemScores),
                    ext.showGrades(subsection, Flag(hasStaffAccess)),
                    ext.buildAbsoluteUri(request, ext.reverseJumpTo(CourseKeyValue(courseKey), subsection.location)))))
  {
    var isStaff := hasStaffAccess;
    if !isEnrolled && !isStaff {
      return Response(401, Message(NotEnrolledMessage));
    }

    var learnerIsFullAccess := false;
    if enrollment.Some? && enrollment.value != map[] {
      learnerIsFullAccess := "mode" in enrollment.value && enrollment.value["mode"] == VerifiedMode;
    }

    var data := DatesTabData(WithoutTodaysDate(blocks), learnerIsFullAccess, userTimezone,
                             verifiedUpgradeLink, chapterGrades);
    var context := AssembleContext(request, learnerIsFullAccess, isStaff, courseKey);
    ViewContextSerializes(ext, data, context, request, learnerIsFullAccess, isStaff, courseKey);
    var serialized := SerializeDatesTab(ext, data, context);
    response := Response(200, Payload(serialized.value));
  }

  // ---------------------------------------------------------------------------------------
  // Properties

  /** The context the view builds has every key the modelled getters index, so rendering the
      modelled fields of the payload never raises, and every row is computed from the view's own
      flags. */
  lemma ViewContextSerializes(ext: Externals, data: DatesTabData, context: Context, request: Request,
                              learnerIsFullAccess: bool, isStaff: bool, courseKey: CourseKey)
    requires context.Keys == {RequestKey, LearnerIsFullAccessKey, StaffAccessKey, CourseKeyKey}
    requires context[RequestKey] == RequestValue(request)
    requires context[LearnerIsFullAccessKey] == Flag(learnerIsFullAccess)
    requires context[StaffAccessKey] == Flag(isStaff)
    requires context[CourseKeyKey] == CourseKeyValue(courseKey)
    ensures SerializeDatesTab(ext, data, context).Ok?
    ensures forall b :: LearnerHasAccess(b, context) == (!IsVerifiedGated(b) || learnerIsFullAccess)
  {
    forall c | 0 <= c < |data.sectionScores|
      ensures SerializeChapter(ext, data.sectionScores[c], context).Ok?
    {
      var chapter := data.sectionScores[c];
      forall k | 0 <= k < |chapter.sections|
        ensures SerializeSubsection(ext, chapter.sections[k], context).Ok?
      {
      }
    }
  }

  /** A user who is neither enrolled nor staff is turned away; staff pass even unenrolled. */
  lemma GateAdmitsStaff(isEnrolled: bool, isStaff: bool)
    ensures !MayViewDatesTab(isEnrolled, isStaff) <==> !isEnrolled && !isStaff
    ensures isStaff ==> MayViewDatesTab(isEnrolled, isStaff)
  {
  }

  /** Without an enrollment record there is no full access; with one, full access means the
      record's mode is 'verified'. */
  lemma FullAccessFromEnrollment(enrollment: Option<EnrollmentRecord>)
    ensures enrollment.None? ==> !FullAccess(enrollment)
    ensures enrollment.Some? ==> (FullAccess(enrollment) <==> "mode" in enrollment.value && enrollment.value["mode"] == VerifiedMode)
  {
  }

  /** Removing the marker commutes with concatenation. */
  lemma {:induction false} WithoutTodaysDateAppend(front: seq<DateBlock>, back: seq<DateBlock>)
    ensures WithoutTodaysDate(front + back) == WithoutTodaysDate(front) + WithoutTodaysDate(back)
  {
    if front == [] {
      assert front + back == back;
    } else {
      assert (front + back)[1..] == front[1..] + back;
      WithoutTodaysDateAppend(front[1..], back);
    }
  }

  /** Where a kept block lands: a block that is not the marker appears in the result right
      after the kept blocks that precede it. */
  lemma KeptBlockPosition(blocks: seq<DateBlock>, i: nat)
    requires i < |blocks| && blocks[i].kind != TodaysDate
    ensures |WithoutTodaysDate(blocks[..i])| < |WithoutTodaysDate(blocks)|
    ensures WithoutTodaysDate(blocks)[|WithoutTodaysDate(blocks[..i])|] == blocks[i]
  {
    assert blocks == blocks[..i] + ([blocks[i]] + blocks[i + 1..]);
    WithoutTodaysDateAppend(blocks[..i], [blocks[i]] + blocks[i + 1..]);
    WithoutTodaysDateAppend([blocks[i]], blocks[i + 1..]);
    assert WithoutTodaysDate([blocks[i]]) == [blocks[i]] by {
      assert [blocks[i]][1..] == [];
    }
  }

  /** Kept blocks keep their relative order: an earlier kept block lands at an earlier
      position than a later one. */
  lemma KeptBlocksKeepOrder(blocks: seq<DateBlock>, i: nat, j: nat)
    requires i < j < |blocks| && blocks[i].kind != TodaysDate
    ensures |WithoutTodaysDate(blocks[..i])| < |WithoutTodaysDate(blocks[..j])|
  {
    assert blocks[..j] == blocks[..i] + blocks[i..j];
    WithoutTodaysDateAppend(blocks[..i], blocks[i..j]);
    assert blocks[i..j] == [blocks[i]] + blocks[i + 1..j];
    WithoutTodaysDateAppend([blocks[i]], blocks[i + 1..j]);
    assert WithoutTodaysDate([blocks[i]]) == [blocks[i]] by {
      assert [blocks[i]][1..] == [];
    }
  }

  /** Nothing but the marker is dropped: every other block occurs in the result exactly as
      often as in the input, and the marker not at all. */
  lemma {:induction false} WithoutTodaysDateCounts(blocks: seq<DateBlock>, b: DateBlock)
    ensures multiset(WithoutTodaysDate(blocks))[b] == if b.kind == TodaysDate then 0 else multiset(blocks)[b]
  {
    if blocks != [] {
      WithoutTodaysDateCounts(blocks[1..], b);
      assert blocks == [blocks[0]] + blocks[1..];
    }
  }
}
