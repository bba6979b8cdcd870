/** Measurement-run results: their constructor, their validator, and the result a runner builds from a session. */
module MeasurementResults {
  import opened Basics
  import opened ObservedStates
  import opened Submissions
  import opened DecisionRecords
  import opened BattleSessions

  datatype RunStatus = Completed | Failed | Aborted | TraceFailed | NoRequest | Incomplete

  datatype BattleOutcome = OurWin | OpponentWin | TieGame | Void | Unfinished

  datatype TraceStatus = Emitted | NoRecords | SinkFailed | NotAttempted

  datatype MeasurementRunResult = MeasurementRunResult(
    runContextDigest: Digest,
    runStatus: RunStatus,
    battleOutcome: BattleOutcome,
    primaryErrorClass: Option<string>,
    recordDigests: seq<RecordDigest>,
    explicitCount: int,
    defaultCount: int,
    controlCount: int,
    ignoredDisplayCount: int,
    finalStateDigest: StateDigest,
    traceStatus: TraceStatus)

  // ----- stable error codes -----

  const TRACE_SINK_CODE: string := "trace_sink_failure"
  const RUNTIME_CODE: string := "runtime_error"

  predicate AllowedCode(text: string) {
    ParseCode(text).Some? || text == TRACE_SINK_CODE || text == "decision_record_construction_failure"
    || text == RUNTIME_CODE
  }

  predicate IsUpper(c: char) {
    'A' <= c <= 'Z'
  }

  predicate IsCodeChar(c: char) {
    'a' <= c <= 'z' || '0' <= c <= '9' || c == '_'
  }

  /** An underscore before every capital but the first character. */
  function SplitCapitals(name: string): string {
    if name == [] then []
    else
      var last := |name| - 1;
      SplitCapitals(name[..last]) + (if last > 0 && IsUpper(name[last]) then ['_', name[last]] else [name[last]])
  }

  /** Every run of other characters becomes one underscore. */
  function SquashOthers(s: string, inRun: bool): string {
    if s == [] then []
    else if IsCodeChar(s[0]) then [s[0]] + SquashOthers(s[1..], false)
    else (if inRun then [] else ['_']) + SquashOthers(s[1..], true)
  }

  function StripLeft(s: string): string {
    if s != [] && s[0] == '_' then StripLeft(s[1..]) else s
  }

  function StripRight(s: string): string {
    if s != [] && s[|s| - 1] == '_' then StripRight(s[..|s| - 1]) else s
  }

  function SnakeName(className: string): string {
    StripRight(StripLeft(SquashOthers(Lower(SplitCapitals(className)), false)))
  }

  /** `_stable_error_code` of an error that is present. */
  function StableErrorCode(fault: Fault): string {
    if fault.code.Some? && AllowedCode(fault.code.value) then fault.code.value
    else
      var code := SnakeName(fault.className);
      if AllowedCode(code) then code[..if |code| < 64 then |code| else 64] else RUNTIME_CODE
  }

  lemma AllowedIsShort(text: string)
    requires AllowedCode(text)
    ensures |text| < 64
  {
    ParsedText(text, ALL_CODES);
    hide FindCode;
  }

  lemma RuntimeIsAllowed()
    ensures AllowedCode(RUNTIME_CODE)
  {
    hide ParseCode;
  }

  /** Whatever exception a run ends with, its published code is one of the allowed ones. */
  lemma {:induction false} StableCodesAreAllowed(fault: Fault)
    ensures AllowedCode(StableErrorCode(fault))
  {
    var code := SnakeName(fault.className);
    hide SnakeName, AllowedCode;
    if AllowedCode(code) {
      AllowedIsShort(code);
      assert code[..|code|] == code;
    }
    RuntimeIsAllowed();
  }

  // ----- how class names are published -----

  predicate LowerWord(word: string) {
    word != [] && forall i :: 0 <= i < |word| ==> 'a' <= word[i] <= 'z'
  }

  ghost predicate LowerWords(words: seq<string>) {
    forall i :: 0 <= i < |words| ==> LowerWord(words[i])
  }

  function Capitalized(word: string): string
    requires LowerWord(word)
  {
    [word[0] - 'a' + 'A'] + word[1..]
  }

  /** A class name: its words, each with a capital. */
  ghost function CamelCase(words: seq<string>): string
    requires LowerWords(words)
  {
    if words == [] then [] else CamelCase(words[..|words| - 1]) + Capitalized(words[|words| - 1])
  }

  /** The words with underscores between them. */
  function SnakeCase(words: seq<string>): string {
    if words == [] then []
    else if |words| == 1 then words[0]
    else SnakeCase(words[..|words| - 1]) + "_" + words[|words| - 1]
  }

  lemma {:induction false} SplitWord(head: string, tail: string)
    requires forall i :: 0 <= i < |tail| ==> !IsUpper(tail[i])
    ensures SplitCapitals(head + tail) == SplitCapitals(head) + tail
  {
    if tail == [] {
      assert head + tail == head;
    } else {
      var last := |tail| - 1;
      SplitWord(head, tail[..last]);
      assert (head + tail)[..|head + tail| - 1] == head + tail[..last];
      assert tail == tail[..last] + [tail[last]];
    }
  }

  lemma SplitCapitalized(head: string, word: string)
    requires LowerWord(word)
    ensures SplitCapitals(head + Capitalized(word))
         == SplitCapitals(head) + (if head == [] then [] else ['_']) + Capitalized(word)
  {
    var capital := [word[0] - 'a' + 'A'];
    assert head + Capitalized(word) == (head + capital) + word[1..];
    SplitWord(head + capital, word[1..]);
    assert (head + capital)[..|head|] == head;
  }

  lemma LowerConcat(a: string, b: string)
    ensures Lower(a + b) == Lower(a) + Lower(b)
  {}

  lemma LowerCapitalized(word: string)
    requires LowerWord(word)
    ensures Lower(Capitalized(word)) == word
  {}

  lemma {:induction false} CamelSplits(words: seq<string>)
    requires LowerWords(words)
    ensures Lower(SplitCapitals(CamelCase(words))) == SnakeCase(words)
    ensures CamelCase(words) == [] <==> words == []
  {
    if words != [] {
      var last := |words| - 1;
      var head := CamelCase(words[..last]);
      CamelSplits(words[..last]);
      SplitCapitalized(head, words[last]);
      LowerCapitalized(words[last]);
      var middle := if head == [] then [] else ['_'];
      LowerConcat(SplitCapitals(head) + middle, Capitalized(words[last]));
      LowerConcat(SplitCapitals(head), middle);
      assert Lower(middle) == middle;
      if last == 0 { assert SplitCapitals([]) == []; }
    }
  }

  lemma {:induction false} SnakeIsClean(words: seq<string>)
    requires LowerWords(words)
    ensures forall i :: 0 <= i < |SnakeCase(words)| ==> IsCodeChar(SnakeCase(words)[i])
    ensures words != [] ==> var text := SnakeCase(words);
                            text != [] && text[0] != '_' && text[|text| - 1] != '_'
  {
    if |words| > 1 {
      SnakeIsClean(words[..|words| - 1]);
    }
  }

  lemma {:induction false} NothingToSquash(s: string)
    requires forall i :: 0 <= i < |s| ==> IsCodeChar(s[i])
    ensures SquashOthers(s, false) == s
  {
    if s != [] { NothingToSquash(s[1..]); }
  }

  /** A class name made of capitalized words is published as the words with underscores between them. */
  lemma {:induction false} ClassNamesAreSnaked(words: seq<string>)
    requires words != [] && LowerWords(words)
    ensures SnakeName(CamelCase(words)) == SnakeCase(words)
  {
    CamelSplits(words);
    SnakeIsClean(words);
    NothingToSquash(SnakeCase(words));
    hide LowerWords, CamelCase, SplitCapitals, Lower, SquashOthers, SnakeCase;
  }

  /** A public error text: one of the record codes, or one of the three of the runner. */
  ghost predicate PublicText(text: string) {
    || (exists code :: text == CodeText(code))
    || text == "trace_sink_failure" || text == "decision_record_construction_failure" || text == "runtime_error"
  }

  lemma AllowedIsPublic(text: string)
    ensures AllowedCode(text) <==> PublicText(text)
  {
    ParsedText(text, ALL_CODES);
    hide FindCode, CodeText;
    if exists code :: text == CodeText(code) {
      var code :| text == CodeText(code);
      ParseOfText(code);
    }
  }

  /** An error publishes its own code if that is public, else its class name if that is, else that it was a runtime
      error. */
  lemma {:induction false} ErrorsPublishTheirCode(fault: Fault)
    ensures StableErrorCode(fault)
         == if fault.code.Some? && PublicText(fault.code.value) then fault.code.value
            else if PublicText(SnakeName(fault.className)) then SnakeName(fault.className)
            else "runtime_error"
  {
    var code := SnakeName(fault.className);
    AllowedIsPublic(code);
    if fault.code.Some? { AllowedIsPublic(fault.code.value); }
    hide SnakeName, AllowedCode, PublicText;
    if AllowedCode(code) {
      AllowedIsShort(code);
      assert code[..|code|] == code;
    }
  }

  // ----- the winner the public state proves -----

  function WinnerOf(state: ObservedState): Option<BattleOutcome> {
    if state.tied then Some(TieGame)
    else if state.winner.None? then None
    else
      var winner := ToId(state.winner.value);
      if winner == ToId(state.ourUserId) then Some(OurWin)
      else if state.p1.userId.Some? && winner == ToId(state.p1.userId.value) then
        Some(if state.ourSide == Some(P1) then OurWin else OpponentWin)
      else if state.p2.userId.Some? && winner == ToId(state.p2.userId.value) then
        Some(if state.ourSide == Some(P2) then OurWin else OpponentWin)
      else None
  }

  /** The side has declared a player with this id. */
  predicate Declared(side: SideView, id: string) {
    side.userId.Some? && ToId(side.userId.value) == id
  }

  /** The winner's id is our user's, or that of the first declared player with it, and that player is ours. */
  predicate OurUserWon(state: ObservedState) {
    && !state.tied && state.winner.Some?
    && var id := ToId(state.winner.value);
       || id == ToId(state.ourUserId)
       || (state.ourSide == Some(P1) && Declared(state.p1, id))
       || (state.ourSide == Some(P2) && Declared(state.p2, id) && !Declared(state.p1, id))
  }

  /** The winner's id is not our user's, and the first declared player with it is not ours. */
  predicate OpponentWon(state: ObservedState) {
    && !state.tied && state.winner.Some?
    && var id := ToId(state.winner.value);
       && id != ToId(state.ourUserId)
       && (|| (Declared(state.p1, id) && state.ourSide != Some(P1))
           || (Declared(state.p2, id) && !Declared(state.p1, id) && state.ourSide != Some(P2)))
  }

  /** The outcome shows who won, as far as the public state proves it. */
  predicate ShowsWinner(state: ObservedState, outcome: BattleOutcome) {
    && (outcome.OurWin? <==> OurUserWon(state))
    && (outcome.OpponentWin? <==> OpponentWon(state))
    && (outcome.TieGame? <==> state.tied)
  }

  lemma WinnerRead(state: ObservedState)
    ensures WinnerOf(state) == Some(OurWin) <==> OurUserWon(state)
    ensures WinnerOf(state) == Some(OpponentWin) <==> OpponentWon(state)
    ensures WinnerOf(state) == Some(TieGame) <==> state.tied
    ensures WinnerOf(state).Some? ==> WinnerOf(state).value in {OurWin, OpponentWin, TieGame}
  {
    hide ToId;
  }

  // ----- the constructor -----

  /** The checks of `MeasurementRunResult.__post_init__` that its types do not already make. */
  ghost predicate ConstructorAccepts(r: MeasurementRunResult) {
    && (r.primaryErrorClass.Some? ==> AllowedCode(r.primaryErrorClass.value))
    && Distinct(r.recordDigests)
    && SafeInteger(r.explicitCount) && SafeInteger(r.defaultCount)
    && SafeInteger(r.controlCount) && SafeInteger(r.ignoredDisplayCount)
  }

  /** `len(set(digests)) == len(digests)`. */
  method AllDifferent(digests: seq<RecordDigest>) returns (different: bool)
    ensures different <==> Distinct(digests)
  {
    var seen: set<RecordDigest> := {};
    var k := 0;
    while k < |digests|
      invariant 0 <= k <= |digests|
      invariant seen == set i | 0 <= i < k :: digests[i]
      invariant Distinct(digests[..k])
    {
      if digests[k] in seen {
        return false;
      }
      seen := seen + {digests[k]};
      k := k + 1;
    }
    assert digests[..k] == digests;
    return true;
  }

  method CheckConstruction(r: MeasurementRunResult) returns (accepted: bool)
    ensures accepted <==> ConstructorAccepts(r)
  {
    if r.primaryErrorClass.Some? && !AllowedCode(r.primaryErrorClass.value) {
      return false;
    }
    var different := AllDifferent(r.recordDigests);
    accepted := different && SafeInteger(r.explicitCount) && SafeInteger(r.defaultCount)
                && SafeInteger(r.controlCount) && SafeInteger(r.ignoredDisplayCount);
  }

  // ----- the status matrix -----

  /** Which combinations of status, error, records, counters and trace a published result may show. */
  predicate StatusMatrix(r: MeasurementRunResult) {
    && (r.primaryErrorClass.None? <==> r.runStatus in {Completed, NoRequest, Incomplete})
    && (r.runStatus.Completed? ==> r.traceStatus.Emitted?)
    && (r.runStatus.NoRequest? ==>
          r.traceStatus in {NoRecords, NotAttempted} && r.explicitCount == 0 && r.defaultCount == 0)
    && (r.runStatus.TraceFailed? ==> r.primaryErrorClass == Some(TRACE_SINK_CODE) && r.traceStatus.SinkFailed?)
    && (r.runStatus.Incomplete? ==> r.battleOutcome.Unfinished?)
    && (r.traceStatus.Emitted? ==> r.recordDigests != [])
    && (r.traceStatus in {NoRecords, NotAttempted} ==> r.recordDigests == [])
  }

  method ValidateStatusMatrix(r: MeasurementRunResult) returns (errors: seq<string>)
    ensures errors == [] <==> StatusMatrix(r)
  {
    errors := [];
    var hasRecords := r.recordDigests != [];
    match r.runStatus {
      case Completed =>
        if r.primaryErrorClass.Some? { errors := errors + ["completed with a primary error"]; }
        if !hasRecords || !r.traceStatus.Emitted? { errors := errors + ["completed without an emitted record"]; }
      case NoRequest =>
        if r.primaryErrorClass.Some? { errors := errors + ["no_request with a primary error"]; }
        if hasRecords || !(r.traceStatus.NoRecords? || r.traceStatus.NotAttempted?) {
          errors := errors + ["no_request with records"];
        }
        if r.explicitCount != 0 || r.defaultCount != 0 { errors := errors + ["no_request with submissions"]; }
      case TraceFailed =>
        if r.primaryErrorClass != Some(TRACE_SINK_CODE) { errors := errors + ["trace_failed without its error"]; }
        if !r.traceStatus.SinkFailed? { errors := errors + ["trace_failed without a failed sink"]; }
      case Failed =>
        if r.primaryErrorClass.None? { errors := errors + ["failed without a primary error"]; }
      case Aborted =>
        if r.primaryErrorClass.None? { errors := errors + ["failed without a primary error"]; }
      case Incomplete =>
        if r.primaryErrorClass.Some? { errors := errors + ["incomplete with a primary error"]; }
        if !r.battleOutcome.Unfinished? { errors := errors + ["incomplete with an outcome"]; }
    }
    if (r.traceStatus.NoRecords? || r.traceStatus.NotAttempted?) && hasRecords {
      errors := errors + ["records contradict an empty trace"];
    }
    if r.traceStatus.Emitted? && !hasRecords {
      errors := errors + ["emitted trace without records"];
    }
  }

  // ----- the validator -----

  function DigestsOf(records: seq<DecisionRecord>): (r: seq<RecordDigest>)
    ensures |r| == |records| && forall i :: 0 <= i < |r| ==> r[i] == RecordDigest(records[i])
  {
    seq(|records|, i requires 0 <= i < |records| => RecordDigest(records[i]))
  }

  /** SUBMITTED records whose submission has the given provenance. */
  function SubmittedWith(records: seq<DecisionRecord>, provenance: Provenance): nat {
    if records == [] then 0 else
    var last := records[|records| - 1];
    SubmittedWith(records[..|records| - 1], provenance)
    + (if last.status.Submitted? && last.provenance == Some(provenance) then 1 else 0)
  }

  ghost predicate InDecisionOrder(records: seq<DecisionRecord>) {
    forall i, j :: 0 <= i < j < |records| ==> records[i].decisionIndex < records[j].decisionIndex
  }

  /** A sink failure may have cost the record of a command that was sent. */
  predicate PartialTrace(r: MeasurementRunResult, records: seq<DecisionRecord>) {
    r.traceStatus.SinkFailed?
    && (r.primaryErrorClass == Some(TRACE_SINK_CODE)
        || exists i :: 0 <= i < |records| && records[i].status.Submitted?)
  }

  ghost predicate CountersFit(r: MeasurementRunResult, records: seq<DecisionRecord>) {
    var submitted, defaulted := SubmittedWith(records, ExplicitRequest), SubmittedWith(records, ServerDefault);
    if PartialTrace(r, records) then submitted <= r.explicitCount && defaulted <= r.defaultCount
    else submitted == r.explicitCount && defaulted == r.defaultCount
  }

  ghost predicate FitsRecords(r: MeasurementRunResult, records: seq<DecisionRecord>) {
    && r.recordDigests == DigestsOf(records)
    && InDecisionOrder(records)
    && (forall i :: 0 <= i < |records| ==> records[i].runContextDigest == r.runContextDigest)
    && (records != [] ==> CountersFit(r, records))
  }

  ghost predicate FitsSession(r: MeasurementRunResult, session: BattleSessionResult) {
    && r.controlCount == session.roomControlOrChatCount
    && r.explicitCount == session.explicitRequestSubmissions
    && r.defaultCount == session.defaultSubmissions
    && (match session.primaryError
        case Some(fault) => r.primaryErrorClass == Some(StableErrorCode(fault))
        case None =>
          r.primaryErrorClass.None? || (r.primaryErrorClass == Some(TRACE_SINK_CODE) && r.traceStatus.SinkFailed?))
    && (session.traceError ==> r.traceStatus.SinkFailed?)
    && (session.recordError ==> !r.traceStatus.Emitted?)
  }

  ghost predicate FitsState(r: MeasurementRunResult, state: ObservedState) {
    && r.finalStateDigest == StateDigest(state)
    && r.ignoredDisplayCount == state.ignoredDisplayCount
    && ShowsWinner(state, r.battleOutcome)
  }

  method CountSubmitted(records: seq<DecisionRecord>, provenance: Provenance) returns (n: nat)
    ensures n == SubmittedWith(records, provenance)
  {
    n := 0;
    var k := 0;
    while k < |records|
      invariant 0 <= k <= |records| && n == SubmittedWith(records[..k], provenance)
    {
      assert records[..k + 1][..k] == records[..k];
      if records[k].status.Submitted? && records[k].provenance == Some(provenance) {
        n := n + 1;
      }
      k := k + 1;
    }
    assert records[..k] == records;
  }

  /** No index repeats and none is below an earlier one: the list equals its sorted self without duplicates. */
  method CheckOrder(records: seq<DecisionRecord>) returns (ordered: bool)
    ensures ordered <==> InDecisionOrder(records)
  {
    var k := 1;
    while k < |records|
      invariant 1 <= k && (records != [] ==> k <= |records|)
      invariant forall i, j :: 0 <= i < j < k && j < |records| ==> records[i].decisionIndex < records[j].decisionIndex
    {
      if records[k].decisionIndex <= records[k - 1].decisionIndex {
        return false;
      }
      k := k + 1;
    }
    return true;
  }

  method ValidateRecords(r: MeasurementRunResult, records: seq<DecisionRecord>) returns (errors: seq<string>)
    ensures errors == [] <==> FitsRecords(r, records)
  {
    errors := [];
    if records == [] {
      if r.recordDigests != [] { errors := errors + ["digests without records"]; }
      return;
    }
    if DigestsOf(records) != r.recordDigests { errors := errors + ["digests are not in decision order"]; }
    var ordered := CheckOrder(records);
    if !ordered { errors := errors + ["invalid decision_index order"]; }
    if exists i :: 0 <= i < |records| && records[i].runContextDigest != r.runContextDigest {
      errors := errors + ["records do not share the run context"];
    }
    var submitted := CountSubmitted(records, ExplicitRequest);
    var defaulted := CountSubmitted(records, ServerDefault);
    if PartialTrace(r, records) {
      if r.explicitCount < submitted { errors := errors + ["explicit count below accepted records"]; }
      if r.defaultCount < defaulted { errors := errors + ["default count below accepted records"]; }
    } else {
      if r.explicitCount != submitted { errors := errors + ["explicit count does not match records"]; }
      if r.defaultCount != defaulted { errors := errors + ["default count does not match records"]; }
    }
  }

  method ValidateSession(r: MeasurementRunResult, session: BattleSessionResult) returns (errors: seq<string>)
    ensures errors == [] <==> FitsSession(r, session)
  {
    hide StableErrorCode;
    errors := [];
    if r.controlCount != session.roomControlOrChatCount { errors := errors + ["room-control count"]; }
    if r.explicitCount != session.explicitRequestSubmissions { errors := errors + ["explicit count"]; }
    if r.defaultCount != session.defaultSubmissions { errors := errors + ["default count"]; }
    var expected :=
      if session.primaryError.Some? then Some(StableErrorCode(session.primaryError.value)) else None;
    if expected.None? && r.primaryErrorClass == Some(TRACE_SINK_CODE) && r.traceStatus.SinkFailed? {
      expected := Some(TRACE_SINK_CODE);
    }
    if r.primaryErrorClass != expected { errors := errors + ["primary error class"]; }
    if session.traceError && !r.traceStatus.SinkFailed? { errors := errors + ["trace status"]; }
    if session.recordError && r.traceStatus.Emitted? { errors := errors + ["record construction failure"]; }
  }

  method ValidateFinalState(r: MeasurementRunResult, state: ObservedState) returns (errors: seq<string>)
    ensures errors == [] <==> FitsState(r, state)
  {
    hide WinnerOf, OurUserWon, OpponentWon;
    WinnerRead(state);
    errors := [];
    if r.finalStateDigest != StateDigest(state) { errors := errors + ["state digest"]; }
    if r.ignoredDisplayCount != state.ignoredDisplayCount { errors := errors + ["ignored-display count"]; }
    var expected := WinnerOf(state);
    if expected.Some? && r.battleOutcome != expected.value { errors := errors + ["battle outcome"]; }
    if expected.None? && (r.battleOutcome.OurWin? || r.battleOutcome.OpponentWin? || r.battleOutcome.TieGame?) {
      errors := errors + ["winner cannot be proven"];
    }
  }

  /** Everything the validator demands of a result, given the records, the session result and the final state. */
  ghost predicate ValidResult(
    r: MeasurementRunResult, records: seq<DecisionRecord>, session: Option<BattleSessionResult>,
    finalState: Option<ObservedState>)
  {
    && FitsRecords(r, records)
    && StatusMatrix(r)
    && (session.Some? ==> FitsSession(r, session.value))
    && (finalState.Some? ==> FitsState(r, finalState.value))
  }

  /** `validate_measurement_run_result`: the error list is empty exactly for a valid result. */
  method ValidateMeasurementRunResult(
    r: MeasurementRunResult, records: seq<DecisionRecord>, session: Option<BattleSessionResult>,
    finalState: Option<ObservedState>)
    returns (errors: seq<string>)
    ensures errors == [] <==> ValidResult(r, records, session, finalState)
  {
    hide FitsRecords, FitsSession, FitsState;
    errors := ValidateRecords(r, records);
    if r.recordDigests != [] && !r.traceStatus.Emitted? && !r.traceStatus.SinkFailed? {
      errors := errors + ["digests require an emitted trace or a sink failure"];
    }
    if r.recordDigests == [] && r.traceStatus.Emitted? {
      errors := errors + ["an emitted trace requires a record"];
    }
    var matrix := ValidateStatusMatrix(r);
    errors := errors + matrix;
    if session.Some? {
      var more := ValidateSession(r, session.value);
      errors := errors + more;
    }
    if finalState.Some? {
      var more := ValidateFinalState(r, finalState.value);
      errors := errors + more;
    }
  }
}
