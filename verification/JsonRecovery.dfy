/** The recovery guarantee: cutting an object text loses at most the member it was cut in. */
module JsonRecovery {
  import opened Wrappers
  import opened Text
  import opened JsonRepair
  import opened JsonParser
  import opened JsonCompletion
  import opened JsonScanners
  import opened JsonStreaming
  import opened JsonCuts

  // ---------------------------------------------------------------------
  // The three kinds of anchor.

  lemma {:induction false} QuotelessIsStable(x: string)
    requires forall i :: 0 <= i < |x| ==> x[i] != '"'
    ensures Stable(x)
  {
    if x == [] {
      assert forall y: string :: x + y == y;
    } else {
      QuotelessIsStable(x[..|x| - 1]);
      StableOutside(x[..|x| - 1], x[|x| - 1]);
      assert x == x[..|x| - 1] + [x[|x| - 1]];
    }
  }

  predicate AllWhitespace(s: string) {
    forall i :: 0 <= i < |s| ==> IsWhitespace(s[i])
  }

  lemma {:induction false} BlankRun(scalar: string -> bool, blank: string)
    requires AllWhitespace(blank)
    ensures CompleteRun(blank) == Some(Completer(blank, [], OUTSIDE))
    ensures Run(scalar, blank) == START || Run(scalar, blank).mode.Fail?
    ensures Cuts(blank) == [] && LexRun(OUTSIDE, blank) == OUTSIDE
  {
    if blank != [] {
      var c := blank[|blank| - 1];
      BlankRun(scalar, blank[..|blank| - 1]);
      assert blank[..|blank| - 1] + [c] == blank;
      assert !IsCloser(c) && c != '"' && c != '{' && c != '[' && c != ',';
    }
  }

  lemma BraceRun(scalar: string -> bool, blank: string)
    requires AllWhitespace(blank)
    ensures var pre := blank + ['{'];
            CompleteRun(pre) == Some(Completer(pre, ['}'], OUTSIDE))
            && (Run(scalar, pre) == State([ObjFrame([], "")], ExpectKeyOrClose) || Run(scalar, pre).mode.Fail?)
            && Cuts(pre) == [|pre|]
  {
    var pre := blank + ['{'];
    assert pre[..|pre| - 1] == blank;
    BlankRun(scalar, blank);
    RunSnoc(scalar, blank, '{');
    CompleteSnoc(blank, '{');
    assert [] + ['}'] == ['}'];
  }

  lemma BraceCommits(blank: string)
    requires CompleteRun(blank + ['{']) == Some(Completer(blank + ['{'], ['}'], OUTSIDE))
    ensures CommitsAt(blank + ['{'])
  {
    CompleterKnowsItsText(blank + ['{']);
  }

  lemma BracePromises(scalar: string -> bool, blank: string)
    requires AllWhitespace(blank)
    ensures Promises(scalar, blank + ['{'], Goal([], None))
  {
    BraceRun(scalar, blank);
    QuotelessIsStable(blank + ['{']);
  }

  /** The opening brace after any blank prefix commits the text to being an object. */
  lemma BraceAnchor(scalar: string -> bool, blank: string)
    requires AllWhitespace(blank)
    ensures Anchored(scalar, blank + ['{'], Goal([], None))
    ensures Cuts(blank + ['{']) == [|blank| + 1]
  {
    BraceRun(scalar, blank);
    BracePromises(scalar, blank);
    BraceCommits(blank);
  }

  lemma CommaThenBrace(scalar: string -> bool, st: State, ms: seq<Member>)
    requires !st.mode.InString?
    requires var st' := Step(scalar, st, ',');
             st'.mode.ExpectKey? && |st'.stack| == 1 && st'.stack[0].ObjFrame? && st'.stack[0].members == ms
    ensures Step(scalar, st, '}') == State([], Done(Obj(ms)))
  {
  }

  /** A text whose last character is a comma between two members of the outermost object. */
  predicate AfterMember(scalar: string -> bool, pre: string, ms: seq<Member>) {
    && EndsWith(pre, ',')
    && var st := Run(scalar, pre);
       st.mode.ExpectKey? && |st.stack| == 1 && st.stack[0].ObjFrame? && st.stack[0].members == ms
  }

  lemma OneObjectOpen(scalar: string -> bool, s: string)
    requires !Run(scalar, s).mode.Fail? && |Run(scalar, s).stack| == 1 && Run(scalar, s).stack[0].ObjFrame?
    ensures SurveyOf(s).open == Some(['}'])
  {
    ReaderAgreesWithSurvey(scalar, s);
    ClosersOfOne(Run(scalar, s).stack);
  }

  lemma SeparatorKeepsStack(scalar: string -> bool, st: State, c: char)
    requires !Step(scalar, st, c).mode.Fail? && !st.mode.InString? && (c == ',' || c == ':')
    ensures !st.mode.Fail? && |Step(scalar, st, c).stack| == |st.stack|
    ensures st.stack != [] ==> Step(scalar, st, c).stack[0].ObjFrame? == st.stack[0].ObjFrame?
  {
  }

  lemma AfterMemberBefore(scalar: string -> bool, pre: string, ms: seq<Member>)
    requires AfterMember(scalar, pre, ms)
    ensures var st0 := Run(scalar, pre[..|pre| - 1]);
            !st0.mode.Fail? && !st0.mode.InString? && Step(scalar, st0, '}') == State([], Done(Obj(ms)))
    ensures SurveyOf(pre[..|pre| - 1]).open == Some(['}'])
  {
    var st0 := Run(scalar, pre[..|pre| - 1]);
    NoStringAfterOrdinary(scalar, st0, ',');
    SeparatorKeepsStack(scalar, st0, ',');
    CommaThenBrace(scalar, st0, ms);
    OneObjectOpen(scalar, pre[..|pre| - 1]);
  }

  lemma CommaAnchor(scalar: string -> bool, pre: string, ms: seq<Member>)
    requires AfterMember(scalar, pre, ms)
    ensures Anchored(scalar, pre, Goal(ms, None))
  {
    var pre0 := pre[..|pre| - 1];
    AfterMemberBefore(scalar, pre, ms);
    CompleterTracksReader(scalar, pre0);
    CompleterTracksReader(scalar, pre);
    CompleterKnowsItsText(pre0);
    CompleterKnowsItsText(pre);
    ReaderAgreesWithSurvey(scalar, pre0);
    var x0 := CompleteRun(pre0).value.text;
    var x := CompleteRun(pre).value.text;
    assert x == x0 + [','];
    ReadTextIsStable(scalar, pre);
    ReadTextIsStable(scalar, x);
    RunSnoc(scalar, x0, '}');
    assert Ended(x) == x0 + ['}'];
    ReadTextIsStable(scalar, Ended(x));
  }

  /** A text whose last character is the colon after a key of the outermost object. */
  predicate AfterColon(scalar: string -> bool, pre: string, ms: seq<Member>, key: string) {
    EndsWith(pre, ':') && Run(scalar, pre) == State([ObjFrame(ms, key)], ExpectValue)
  }

  lemma ColonCompletes(scalar: string -> bool, pre: string)
    requires EndsWith(pre, ':') && !Run(scalar, pre).mode.Fail? && !Run(scalar, pre).mode.InString?
    ensures CompleteRun(pre).Some? && EndsWith(CompleteRun(pre).value.text, ':')
    ensures Run(scalar, CompleteRun(pre).value.text) == Run(scalar, pre)
  {
    var pre0 := pre[..|pre| - 1];
    NoStringAfterOrdinary(scalar, Run(scalar, pre0), ':');
    SeparatorKeepsStack(scalar, Run(scalar, pre0), ':');
    CompleterTracksReader(scalar, pre0);
    CompleterTracksReader(scalar, pre);
  }

  lemma ColonAnchor(scalar: string -> bool, pre: string, ms: seq<Member>, key: string)
    requires AfterColon(scalar, pre, ms, key)
    ensures Anchored(scalar, pre, Goal(ms, Some(key)))
  {
    ColonCompletes(scalar, pre);
    OneObjectOpen(scalar, pre);
    CompleterKnowsItsText(pre);
    ReaderAgreesWithSurvey(scalar, pre);
    ReadTextIsStable(scalar, pre);
    ReadTextIsStable(scalar, CompleteRun(pre).value.text);
  }

  // ---------------------------------------------------------------------
  // Where the last comma and the last colon are.

  predicate InObject(st: State) {
    if st.stack != [] then st.stack[0].ObjFrame? else st.mode.Done? && st.mode.result.Obj?
  }

  /** A text that the reader can still turn into an object is blank or already inside one. */
  predicate MayBeObject(st: State) {
    InObject(st) || (st.stack == [] && st.mode.ExpectValue?)
  }

  lemma DeliverInObject(stack: seq<Frame>, v: Value)
    requires InObject(Deliver(stack, v))
    ensures if stack == [] then v.Obj? else stack[0].ObjFrame?
  {
  }

  lemma CloseInObject(stack: seq<Frame>, c: char)
    requires InObject(Close(stack, c))
    ensures stack != [] && stack[0].ObjFrame?
  {
  }

  lemma ContinueInObject(st: State, c: char)
    requires st.mode.AfterValue? || st.mode.Done?
    requires MayBeObject(Continue(st, c))
    ensures InObject(st)
  {
    if IsCloser(c) {
      CloseInObject(st.stack, c);
    }
  }

  lemma StepMayBeObject(scalar: string -> bool, st: State, c: char)
    requires MayBeObject(Step(scalar, st, c)) && WellShaped(st)
    ensures MayBeObject(st) && !st.mode.Fail?
  {
    match st.mode
    case InString(raw, escaped, isKey) =>
      if !escaped && c == '"' && !isKey {
        DeliverInObject(st.stack, Str(Decode(raw).value));
      }
    case InWord(word) =>
      if !IsWordChar(c) {
        ContinueInObject(Deliver(st.stack, Scalar(word)), c);
        DeliverInObject(st.stack, Scalar(word));
      }
    case AfterValue => ContinueInObject(st, c);
    case Done(_) => ContinueInObject(st, c);
    case ExpectValueOrClose => if IsCloser(c) { CloseInObject(st.stack, c); }
    case ExpectKeyOrClose => if IsCloser(c) { CloseInObject(st.stack, c); }
    case _ =>
  }

  lemma {:induction false} PrefixMayBeObject(scalar: string -> bool, s: string, t: string)
    requires s <= t && MayBeObject(Run(scalar, t)) && !Run(scalar, t).mode.Fail?
    ensures MayBeObject(Run(scalar, s)) && !Run(scalar, s).mode.Fail?
    decreases |t|
  {
    if |s| == |t| {
      assert s == t;
    } else {
      var t0 := t[..|t| - 1];
      assert s <= t0;
      ReaderAgreesWithSurvey(scalar, t0);
      StepMayBeObject(scalar, Run(scalar, t0), t[|t| - 1]);
      PrefixMayBeObject(scalar, s, t0);
    }
  }

  /** `p` is the length of the prefix that ends with the last top-level comma, or with the opening
      brace when there is no such comma. */
  predicate LastCommaAt(scalar: string -> bool, s: string, p: nat) {
    && 0 < p <= |s|
    && (SurveyOf(s).commas == 0 ==> AllWhitespace(s[..p - 1]) && s[p - 1] == '{')
    && (SurveyOf(s).commas > 0 ==>
          var st := Run(scalar, s[..p]);
          st.stack != [] && st.stack[0].ObjFrame? && |st.stack[0].members| == SurveyOf(s).commas
          && AfterMember(scalar, s[..p], st.stack[0].members))
  }

  lemma {:induction false} LastComma(scalar: string -> bool, s: string) returns (p: nat)
    requires !Run(scalar, s).mode.Fail? && InObject(Run(scalar, s))
    ensures LastCommaAt(scalar, s, p)
  {
    var s0 := s[..|s| - 1];
    PrefixMayBeObject(scalar, s0, s);
    if !InObject(Run(scalar, s0)) {
      p := |s|;
      FirstBrace(scalar, s);
    } else if SurveyOf(s).commas > SurveyOf(s0).commas {
      p := |s|;
      CommaHere(scalar, s);
    } else {
      p := LastComma(scalar, s0);
      SameLastComma(scalar, s, p);
    }
  }

  lemma SameLastComma(scalar: string -> bool, s: string, p: nat)
    requires s != [] && LastCommaAt(scalar, s[..|s| - 1], p)
    requires SurveyOf(s).commas <= SurveyOf(s[..|s| - 1]).commas
    ensures LastCommaAt(scalar, s, p)
  {
    var s0 := s[..|s| - 1];
    OneMoreComma(SurveyOf(s0), s[|s| - 1]);
    assert s0[..p] == s[..p] && s0[..p - 1] == s[..p - 1];
  }

  lemma FirstBrace(scalar: string -> bool, s: string)
    requires s != [] && MayBeObject(Run(scalar, s)) && !Run(scalar, s).mode.Fail? && InObject(Run(scalar, s))
    requires MayBeObject(Run(scalar, s[..|s| - 1])) && !InObject(Run(scalar, s[..|s| - 1]))
    ensures LastCommaAt(scalar, s, |s|)
  {
    var s0 := s[..|s| - 1];
    ReaderAgreesWithSurvey(scalar, s0);
    ExpectingIsBlank(scalar, s0);
    BraceStep(scalar, s[|s| - 1], SurveyOf(s0));
  }

  lemma BraceStep(scalar: string -> bool, c: char, sv: Survey)
    requires Agrees(START, sv) && InObject(Step(scalar, START, c))
    ensures c == '{' && SurveyStep(sv, c).commas == 0
  {
    ClosersOfLength([]);
  }

  lemma CommaHere(scalar: string -> bool, s: string)
    requires s != [] && !Run(scalar, s).mode.Fail? && InObject(Run(scalar, s[..|s| - 1]))
    requires SurveyOf(s).commas > SurveyOf(s[..|s| - 1]).commas
    ensures LastCommaAt(scalar, s, |s|)
  {
    var s0 := s[..|s| - 1];
    var c := s[|s| - 1];
    PrefixNotFailed(scalar, s);
    ReaderAgreesWithSurvey(scalar, s0);
    ReaderAgreesWithSurvey(scalar, s);
    ClosersOfLength(Run(scalar, s0).stack);
    TopCommaStep(scalar, Run(scalar, s0), c, SurveyOf(s0));
    OneMoreComma(SurveyOf(s0), c);
    assert s[..|s|] == s;
  }

  lemma OneMoreComma(sv: Survey, c: char)
    ensures sv.commas <= SurveyStep(sv, c).commas <= sv.commas + 1
    ensures sv.colons <= SurveyStep(sv, c).colons <= sv.colons + 1
  {
  }

  lemma PrefixNotFailed(scalar: string -> bool, s: string)
    requires s != [] && !Run(scalar, s).mode.Fail?
    ensures !Run(scalar, s[..|s| - 1]).mode.Fail?
  {
  }

  lemma TopCommaStep(scalar: string -> bool, st0: State, c: char, sv: Survey)
    requires Agrees(st0, sv) && InObject(st0) && |ClosersOf(st0.stack)| == |st0.stack|
    requires SurveyStep(sv, c).commas > sv.commas && !Step(scalar, st0, c).mode.Fail?
    requires Agrees(Step(scalar, st0, c), SurveyStep(sv, c))
    ensures var st := Step(scalar, st0, c);
            c == ',' && st.mode.ExpectKey? && |st.stack| == 1 && st.stack[0].ObjFrame?
            && |st.stack[0].members| == sv.commas + 1
  {
  }

  lemma {:induction false} ExpectingIsBlank(scalar: string -> bool, s: string)
    requires Run(scalar, s) == START
    ensures AllWhitespace(s)
  {
    if s != [] {
      ReaderAgreesWithSurvey(scalar, s[..|s| - 1]);
      StaysAtStart(scalar, Run(scalar, s[..|s| - 1]), s[|s| - 1]);
      ExpectingIsBlank(scalar, s[..|s| - 1]);
    }
  }

  lemma StaysAtStart(scalar: string -> bool, st: State, c: char)
    requires Step(scalar, st, c) == START && WellShaped(st)
    ensures st == START && IsJsonSpace(c)
  {
  }

  /** `q` is the length of the prefix that ends with the colon of the member being read. */
  predicate LastColonAt(scalar: string -> bool, s: string, q: nat, ms: seq<Member>, key: string) {
    && 0 < q <= |s| && |ms| == SurveyOf(s).commas
    && AfterColon(scalar, s[..q], ms, key) && SurveyOf(s[..q - 1]).colons == SurveyOf(s).commas
  }

  lemma {:induction false} LastColon(scalar: string -> bool, s: string) returns (q: nat, ms: seq<Member>, key: string)
    requires !Run(scalar, s).mode.Fail? && InObject(Run(scalar, s))
    requires SurveyOf(s).colons == SurveyOf(s).commas + 1
    ensures LastColonAt(scalar, s, q, ms, key)
  {
    var s0 := s[..|s| - 1];
    PrefixMayBeObject(scalar, s0, s);
    if SurveyOf(s).colons > SurveyOf(s0).colons {
      q := |s|;
      ms, key := ColonHere(scalar, s);
    } else {
      NoMoreColons(scalar, s);
      q, ms, key := LastColon(scalar, s0);
      SameLastColon(scalar, s, q, ms, key);
    }
  }

  lemma SameLastColon(scalar: string -> bool, s: string, q: nat, ms: seq<Member>, key: string)
    requires s != [] && LastColonAt(scalar, s[..|s| - 1], q, ms, key)
    requires SurveyOf(s).commas == SurveyOf(s[..|s| - 1]).commas
    ensures LastColonAt(scalar, s, q, ms, key)
  {
    var s0 := s[..|s| - 1];
    assert s0[..q] == s[..q] && s0[..q - 1] == s[..q - 1];
  }

  lemma ColonHere(scalar: string -> bool, s: string) returns (ms: seq<Member>, key: string)
    requires s != [] && !Run(scalar, s).mode.Fail? && MayBeObject(Run(scalar, s[..|s| - 1]))
    requires SurveyOf(s).colons > SurveyOf(s[..|s| - 1]).colons
    ensures LastColonAt(scalar, s, |s|, ms, key)
  {
    var s0 := s[..|s| - 1];
    var st0 := Run(scalar, s0);
    PrefixNotFailed(scalar, s);
    ReaderAgreesWithSurvey(scalar, s0);
    ClosersOfLength(st0.stack);
    TopColonStep(scalar, st0, s[|s| - 1], SurveyOf(s0));
    assert s[..|s|] == s;
    ms, key := st0.stack[0].members, st0.stack[0].key;
  }

  /** Where the next character adds no colon to one colon too many, it adds no comma either. */
  lemma NoMoreColons(scalar: string -> bool, s: string)
    requires s != [] && !Run(scalar, s).mode.Fail? && InObject(Run(scalar, s))
    requires MayBeObject(Run(scalar, s[..|s| - 1]))
    requires SurveyOf(s).colons == SurveyOf(s).commas + 1 && SurveyOf(s).colons <= SurveyOf(s[..|s| - 1]).colons
    ensures InObject(Run(scalar, s[..|s| - 1]))
    ensures SurveyOf(s[..|s| - 1]).colons == SurveyOf(s[..|s| - 1]).commas + 1
    ensures SurveyOf(s[..|s| - 1]).commas == SurveyOf(s).commas
  {
    var s0 := s[..|s| - 1];
    PrefixNotFailed(scalar, s);
    ReaderAgreesWithSurvey(scalar, s0);
    ReaderAgreesWithSurvey(scalar, s);
    OneMoreComma(SurveyOf(s0), s[|s| - 1]);
    ColonsAtMost(Run(scalar, s0), SurveyOf(s0));
  }

  lemma ColonsAtMost(st: State, sv: Survey)
    requires Agrees(st, sv) && MayBeObject(st)
    ensures sv.colons <= sv.commas + 1 && (!InObject(st) ==> sv.colons == 0)
  {
  }

  lemma TopColonStep(scalar: string -> bool, st0: State, c: char, sv: Survey)
    requires Agrees(st0, sv) && MayBeObject(st0) && |ClosersOf(st0.stack)| == |st0.stack|
    requires SurveyStep(sv, c).colons > sv.colons && !Step(scalar, st0, c).mode.Fail?
    ensures c == ':' && |st0.stack| == 1 && st0.stack[0].ObjFrame? && st0.mode.AfterKey?
    ensures Step(scalar, st0, c) == State([st0.stack[0]], ExpectValue)
    ensures |st0.stack[0].members| == sv.commas == sv.colons
  {
    assert st0.stack == [st0.stack[0]];
  }

  // ---------------------------------------------------------------------
  // The truncation at the last comma always reads.

  lemma TruncationReads(scalar: string -> bool, pre: string, ms: seq<Member>)
    requires AfterMember(scalar, pre, ms)
    ensures Attempt(scalar, pre[..|pre| - 1]) == Some(Obj(ms))
  {
    var s := pre[..|pre| - 1];
    AfterMemberBefore(scalar, pre, ms);
    ReadTextIsKept(scalar, s, []);
    assert s + [] == s;
    CompleterTracksReader(scalar, s);
    CompleterKnowsItsText(s);
    ReaderAgreesWithSurvey(scalar, s);
    var st := CompleteRun(s).value;
    var t := TrimEnd(st.text);
    TrimBeforeCloser(scalar, st.text, '}');
    NoSeparatorBeforeCloser(scalar, t, '}');
    assert CloseAll(t + ['}'], []) == Some(t + ['}']);
    assert CloseAll(st.text, ['}']) == Some(t + ['}']);
    RunSnoc(scalar, t, '}');
    assert Complete(s) == Some(t + ['}']);
  }

  // ---------------------------------------------------------------------
  // The guarantee.

  /** A recovered object that lost at most the member the text was cut in: its first `k` members
      are the original ones, and one more, if present, is filed under the original next key. */
  predicate Recovers(v: Value, ms: seq<Member>, k: nat) {
    && v.Obj? && k <= |ms|
    && k <= |v.members| <= k + 1
    && v.members[..k] == ms[..k]
    && (|v.members| == k + 1 ==> k < |ms| && v.members[k].key == ms[k].key)
  }

  /** A value read from a text, directly or after completion, has no more members than the text
      has top-level colons, and at most one more than it has top-level commas. */
  lemma ReadingIsCounted(scalar: string -> bool, x: string, v: Value)
    requires (ParseWithRepair(scalar, x) == Some(v) || Attempt(scalar, x) == Some(v)) && v.Obj?
    ensures |v.members| <= SurveyOf(x).commas + 1 && |v.members| <= SurveyOf(x).colons
  {
    var y := if ParseWithRepair(scalar, x) == Some(v) then x else Complete(x).value;
    if ParseWithRepair(scalar, x) != Some(v) {
      CompletedTextIsBalanced(x);
    }
    RepairKeepsSurvey(NOTHING_READ, x);
    RepairKeepsSurvey(NOTHING_READ, y);
    if Parse(scalar, y).Some? {
      MembersAreCounted(scalar, y);
    } else {
      MembersAreCounted(scalar, Repair(y, false));
    }
  }

  /** The texts a recovery of `s` may be read from. */
  predicate IsSource(s: string, x: string) {
    x == s || x <= Repair(s, false)
  }

  lemma SourceIsCounted(s: string, x: string)
    requires IsSource(s, x)
    ensures SurveyOf(x).commas <= SurveyOf(s).commas && SurveyOf(x).colons <= SurveyOf(s).colons
  {
    RepairKeepsSurvey(NOTHING_READ, s);
    if x != s {
      SurveyGrows(x, Repair(s, false)[|x|..]);
      assert Repair(s, false) == x + Repair(s, false)[|x|..];
    }
  }

  /** A source with a colon after the last comma contains the text up to that colon. */
  lemma SourceReachesColon(scalar: string -> bool, s: string, x: string, q: nat)
    requires IsSource(s, x) && 0 < q <= |s| && Stable(s[..q])
    requires SurveyOf(s[..q - 1]).colons < SurveyOf(x).colons
    ensures s[..q] <= x
  {
    if x != s {
      assert s == s[..q] + s[q..];
      assert Repair(s[..q] + s[q..], false) == s[..q] + Repair(s[q..], false);
      if |x| < q {
        assert x <= s[..q - 1];
        assert s[..q - 1] == x + s[..q - 1][|x|..];
        SurveyGrows(x, s[..q - 1][|x|..]);
      }
    }
  }

  lemma ReadingRecovers(scalar: string -> bool, t: string, ms: seq<Member>, s: string,
                        pre: string, x: string, v: Value)
    requires Parse(scalar, t) == Some(Obj(ms)) && Shares(scalar, s, t) && pre <= x && IsSource(s, x)
    requires !Run(scalar, s).mode.Fail? && InObject(Run(scalar, s))
    requires SurveyOf(s).commas <= |ms|
    requires Anchored(scalar, pre, Goal(ms[..SurveyOf(s).commas], None))
    requires ParseWithRepair(scalar, x) == Some(v) || Attempt(scalar, x) == Some(v)
    ensures Recovers(v, ms, SurveyOf(s).commas)
  {
    var k := SurveyOf(s).commas;
    AnchorHolds(scalar, pre, Goal(ms[..k], None), x);
    ReadingIsCounted(scalar, x, v);
    SourceIsCounted(s, x);
    ReaderAgreesWithSurvey(scalar, s);
    ClosersOfLength(Run(scalar, s).stack);
    if |v.members| == k + 1 {
      var q, ms', key := LastColon(scalar, s);
      var pre' := s[..q];
      ColonAnchor(scalar, pre', ms', key);
      SourceReachesColon(scalar, s, x, q);
      assert pre' <= t;
      ParseHolds(scalar, pre', t, Goal(ms', Some(key)));
      AnchorHolds(scalar, pre', Goal(ms', Some(key)), x);
    }
  }

  lemma {:induction false} AllWhitespaceIsBlank(s: string)
    requires AllWhitespace(s)
    ensures IsBlank(s)
  {
    if s != [] {
      AllWhitespaceIsBlank(s[..|s| - 1]);
    }
  }

  lemma AnchoredIsNotBlank(pre: string, s: string)
    requires pre <= s && pre != [] && !IsWhitespace(pre[|pre| - 1])
    ensures !IsBlank(s)
  {
    TrimKeepsPrefix(pre, s);
  }

  /** The candidates that come after an anchor all contain it. */
  lemma LaterCutsContain(pre: string, r: string, at: nat)
    requires pre <= r && Cuts(pre) != [] && |Cuts(pre)| - 1 <= at < |Cuts(r)|
    requires EndsWith(pre, '{') || EndsWith(pre, ',')
    requires Cuts(pre)[|Cuts(pre)| - 1] == if EndsWith(pre, ',') then |pre| - 1 else |pre|
    ensures Cuts(r)[at] <= |r|
    ensures at >= |Cuts(pre)| || EndsWith(pre, '{') ==> pre <= r[..Cuts(r)[at]]
  {
    var n := |Cuts(pre)| - 1;
    CutsOfPrefix(pre, r);
    CutsInRange(r);
    if n < at {
      CutsIncrease(r, n, at);
    }
    if |pre| <= Cuts(r)[at] {
      PrefixOfCut(pre, r, Cuts(r)[at]);
    }
  }

  lemma PrefixOfCut(pre: string, r: string, cut: nat)
    requires pre <= r && |pre| <= cut <= |r|
    ensures pre <= r[..cut]
  {
  }

  lemma LaterCandidatesContain(pre: string, r: string, first: nat)
    requires pre <= r && Cuts(pre) != []
    requires EndsWith(pre, '{') || EndsWith(pre, ',')
    requires Cuts(pre)[|Cuts(pre)| - 1] == if EndsWith(pre, ',') then |pre| - 1 else |pre|
    requires first == if EndsWith(pre, '{') then |Cuts(pre)| - 1 else |Cuts(pre)|
    ensures AllContain(pre, Candidates(r), first)
  {
    forall i | first <= i < |Candidates(r)|
      ensures pre <= Candidates(r)[i]
    {
      LaterCutsContain(pre, r, i);
    }
  }

  lemma CutsOfPrefix(pre: string, r: string)
    requires pre <= r
    ensures Cuts(pre) <= Cuts(r)
  {
    assert r == pre + r[|pre|..];
    CutsExtend(pre, r[|pre|..]);
  }

  predicate AllRecover(attempts: seq<Option<Value>>, first: nat, ms: seq<Member>, k: nat) {
    forall i :: first <= i < |attempts| && attempts[i].Some? ==> Recovers(attempts[i].value, ms, k)
  }

  /** A search whose attempts from `first` on all recover, and which otherwise ends at the
      truncation before the last comma, recovers. */
  lemma SearchRecovers(attempts: seq<Option<Value>>, first: nat, ms: seq<Member>, k: nat)
    requires AllRecover(attempts, first, ms, k)
    requires EndsAtComma(attempts, first, ms, k)
    ensures Recovers(LastValue(attempts), ms, k)
  {
    var at := LastValueSource(attempts);
  }

  predicate EndsAtComma(attempts: seq<Option<Value>>, first: nat, ms: seq<Member>, k: nat) {
    if first == 0 then k == 0
    else first <= |attempts| && k <= |ms| && attempts[first - 1] == Some(Obj(ms[..k]))
  }

  /** The attempt at a candidate that contains the anchor recovers. */
  lemma AttemptRecovers(scalar: string -> bool, t: string, ms: seq<Member>, s: string, pre: string, i: nat)
    requires Parse(scalar, t) == Some(Obj(ms)) && Shares(scalar, s, t) && pre <= s
    requires !Run(scalar, s).mode.Fail? && InObject(Run(scalar, s)) && SurveyOf(s).commas <= |ms|
    requires Anchored(scalar, pre, Goal(ms[..SurveyOf(s).commas], None))
    requires var r := Repair(s, false);
             i < |Cuts(r)| && pre <= Candidates(r)[i]
    ensures var a := Attempts(scalar, Candidates(Repair(s, false)))[i];
            a.Some? ==> Recovers(a.value, ms, SurveyOf(s).commas)
  {
    var x := Candidates(Repair(s, false))[i];
    var a := Attempts(scalar, Candidates(Repair(s, false)))[i];
    assert a == Attempt(scalar, x);
    if a.Some? {
      ReadingRecovers(scalar, t, ms, s, pre, x, a.value);
    }
  }

  predicate AllContain(pre: string, candidates: seq<string>, first: nat) {
    forall i :: first <= i < |candidates| ==> pre <= candidates[i]
  }

  lemma LaterAttemptsRecover(scalar: string -> bool, t: string, ms: seq<Member>, s: string, pre: string, first: nat)
    requires Parse(scalar, t) == Some(Obj(ms)) && Shares(scalar, s, t) && pre <= s
    requires !Run(scalar, s).mode.Fail? && InObject(Run(scalar, s)) && SurveyOf(s).commas <= |ms|
    requires Anchored(scalar, pre, Goal(ms[..SurveyOf(s).commas], None))
    requires AllContain(pre, Candidates(Repair(s, false)), first)
    ensures AllRecover(Attempts(scalar, Candidates(Repair(s, false))), first, ms, SurveyOf(s).commas)
  {
    var candidates := Candidates(Repair(s, false));
    forall i | first <= i < |candidates| && Attempts(scalar, candidates)[i].Some?
      ensures Recovers(Attempts(scalar, candidates)[i].value, ms, SurveyOf(s).commas)
    {
      AttemptRecovers(scalar, t, ms, s, pre, i);
    }
  }

  lemma AnchorInRepair(pre: string, s: string)
    requires Stable(pre) && pre <= s
    ensures pre <= Repair(s, false)
  {
    assert s == pre + s[|pre|..];
    assert Repair(pre + s[|pre|..], false) == pre + Repair(s[|pre|..], false);
  }

  lemma SearchFromAnchor(scalar: string -> bool, t: string, ms: seq<Member>, s: string, pre: string, first: nat)
    requires Parse(scalar, t) == Some(Obj(ms)) && Shares(scalar, s, t) && pre <= s
    requires !Run(scalar, s).mode.Fail? && InObject(Run(scalar, s)) && SurveyOf(s).commas <= |ms|
    requires Anchored(scalar, pre, Goal(ms[..SurveyOf(s).commas], None))
    requires AllContain(pre, Candidates(Repair(s, false)), first)
    requires EndsAtComma(Attempts(scalar, Candidates(Repair(s, false))), first, ms, SurveyOf(s).commas)
    ensures Recovers(LastValue(Attempts(scalar, Candidates(Repair(s, false)))), ms, SurveyOf(s).commas)
  {
    LaterAttemptsRecover(scalar, t, ms, s, pre, first);
    SearchRecovers(Attempts(scalar, Candidates(Repair(s, false))), first, ms, SurveyOf(s).commas);
  }

  lemma BraceInCandidates(s: string, blank: string)
    requires blank + ['{'] <= s && AllWhitespace(blank) && Cuts(blank + ['{']) == [|blank| + 1]
    ensures AllContain(blank + ['{'], Candidates(Repair(s, false)), 0)
  {
    var pre := blank + ['{'];
    QuotelessIsStable(pre);
    AnchorInRepair(pre, s);
    LaterCandidatesContain(pre, Repair(s, false), 0);
  }

  /** The cut before a top-level comma is the last cut of the text up to that comma. */
  lemma CutBeforeComma(scalar: string -> bool, pre: string, ms: seq<Member>)
    requires AfterMember(scalar, pre, ms)
    ensures Cuts(pre) != [] && Cuts(pre)[|Cuts(pre)| - 1] == |pre| - 1
  {
    var pre0 := pre[..|pre| - 1];
    AfterMemberBefore(scalar, pre, ms);
    assert pre == pre0 + [','];
    NotInString(scalar, pre0);
    CutsSnoc(pre0, ',');
  }

  lemma NotInString(scalar: string -> bool, s: string)
    requires !Run(scalar, s).mode.Fail? && !Run(scalar, s).mode.InString?
    ensures LexRun(OUTSIDE, s) == OUTSIDE
  {
    ReaderAgreesWithSurvey(scalar, s);
    SurveyLex(NOTHING_READ, s);
  }

  /** Its candidate reads as the members before the comma. */
  lemma AttemptBeforeComma(scalar: string -> bool, pre: string, ms: seq<Member>, r: string)
    requires AfterMember(scalar, pre, ms) && pre <= r
    ensures 0 < |Cuts(pre)| <= |Cuts(r)|
    ensures Attempts(scalar, Candidates(r))[|Cuts(pre)| - 1] == Some(Obj(ms))
  {
    var n := |Cuts(pre)| - 1;
    CutBeforeComma(scalar, pre, ms);
    TruncationReads(scalar, pre, ms);
    CutsOfPrefix(pre, r);
    assert Candidates(r)[n] == r[..|pre| - 1] == pre[..|pre| - 1];
  }

  lemma LaterMemberAnchored(scalar: string -> bool, s: string, p: nat, ms: seq<Member>)
    requires 0 < p <= |s| && AfterMember(scalar, s[..p], ms)
    ensures Anchored(scalar, s[..p], Goal(ms, None))
    ensures 0 < |Cuts(s[..p])| <= |Candidates(Repair(s, false))|
    ensures AllContain(s[..p], Candidates(Repair(s, false)), |Cuts(s[..p])|)
    ensures Attempts(scalar, Candidates(Repair(s, false)))[|Cuts(s[..p])| - 1] == Some(Obj(ms))
  {
    var pre, r := s[..p], Repair(s, false);
    CommaAnchor(scalar, pre, ms);
    AnchorInRepair(pre, s);
    AttemptBeforeComma(scalar, pre, ms, r);
    CutBeforeComma(scalar, pre, ms);
    LaterCandidatesContain(pre, r, |Cuts(pre)|);
  }

  /** Where the search for a cut text is anchored: the text up to its last top-level comma or its
      opening brace, and the first truncation candidate that contains it. */
  ghost predicate Anchoring(scalar: string -> bool, ms: seq<Member>, s: string, pre: string, first: nat) {
    && SurveyOf(s).commas <= |ms| && pre <= s && pre != [] && !IsWhitespace(pre[|pre| - 1])
    && Anchored(scalar, pre, Goal(ms[..SurveyOf(s).commas], None))
    && AllContain(pre, Candidates(Repair(s, false)), first)
    && EndsAtComma(Attempts(scalar, Candidates(Repair(s, false))), first, ms, SurveyOf(s).commas)
  }

  lemma AnchorAtBrace(scalar: string -> bool, ms: seq<Member>, s: string, blank: string)
    requires blank + ['{'] <= s && AllWhitespace(blank) && SurveyOf(s).commas == 0
    ensures Anchoring(scalar, ms, s, blank + ['{'], 0)
  {
    BraceAnchor(scalar, blank);
    BraceInCandidates(s, blank);
    assert ms[..0] == [];
  }

  lemma AnchorAtComma(scalar: string -> bool, t: string, ms: seq<Member>, s: string, p: nat, ms': seq<Member>)
    requires Parse(scalar, t) == Some(Obj(ms)) && Shares(scalar, s, t) && 0 < p <= |s|
    requires AfterMember(scalar, s[..p], ms') && |ms'| == SurveyOf(s).commas
    ensures Anchoring(scalar, ms, s, s[..p], |Cuts(s[..p])|)
  {
    LaterMemberAnchored(scalar, s, p, ms');
    ParseHolds(scalar, s[..p], t, Goal(ms', None));
    assert ms' == ms[..|ms'|];
  }

  lemma FindAnchor(scalar: string -> bool, t: string, ms: seq<Member>, s: string) returns (pre: string, first: nat)
    requires Parse(scalar, t) == Some(Obj(ms)) && Shares(scalar, s, t)
    requires !Run(scalar, s).mode.Fail? && InObject(Run(scalar, s))
    ensures Anchoring(scalar, ms, s, pre, first)
  {
    var p := LastComma(scalar, s);
    pre := s[..p];
    if SurveyOf(s).commas > 0 {
      first := |Cuts(pre)|;
      AnchorAtComma(scalar, t, ms, s, p, Run(scalar, pre).stack[0].members);
    } else {
      first := 0;
      AnchorAtFirstBrace(scalar, ms, s, p);
    }
  }

  lemma AnchorAtFirstBrace(scalar: string -> bool, ms: seq<Member>, s: string, p: nat)
    requires 0 < p <= |s| && AllWhitespace(s[..p - 1]) && s[p - 1] == '{' && SurveyOf(s).commas == 0
    ensures Anchoring(scalar, ms, s, s[..p], 0)
  {
    assert s[..p - 1] + ['{'] == s[..p];
    AnchorAtBrace(scalar, ms, s, s[..p - 1]);
  }

  lemma AnchoredTextRecovers(scalar: string -> bool, t: string, ms: seq<Member>, s: string, pre: string, first: nat)
    requires Parse(scalar, t) == Some(Obj(ms)) && Shares(scalar, s, t)
    requires !Run(scalar, s).mode.Fail? && InObject(Run(scalar, s))
    requires Anchoring(scalar, ms, s, pre, first)
    ensures Recovers(ParseStreaming(scalar, Some(s)), ms, SurveyOf(s).commas)
  {
    SearchFromAnchor(scalar, t, ms, s, pre, first);
    AnchoredIsNotBlank(pre, s);
    if ParseWithRepair(scalar, s).Some? {
      ReadingRecovers(scalar, t, ms, s, pre, s, ParseWithRepair(scalar, s).value);
    } else if Attempt(scalar, s).Some? {
      ReadingRecovers(scalar, t, ms, s, pre, s, Attempt(scalar, s).value);
    }
  }

  /** A text that shares its beginning with an object text, and that the reader can still turn into
      an object, recovers. */
  lemma SharedTextRecovers(scalar: string -> bool, t: string, ms: seq<Member>, s: string)
    requires Parse(scalar, t) == Some(Obj(ms)) && Shares(scalar, s, t)
    requires !Run(scalar, s).mode.Fail? && MayBeObject(Run(scalar, s))
    ensures Recovers(ParseStreaming(scalar, Some(s)), ms, SurveyOf(s).commas)
  {
    if InObject(Run(scalar, s)) {
      var pre, first := FindAnchor(scalar, t, ms, s);
      AnchoredTextRecovers(scalar, t, ms, s, pre, first);
    } else {
      BlankTextRecovers(scalar, ms, s);
    }
  }

  /** The repaired cut text is still on the way to being an object. */
  lemma CutTextMayBeObject(scalar: string -> bool, p: string, r: string, whole: string)
    requires PartsAt(false, p, r, whole) && MayBeObject(Run(scalar, whole)) && !Run(scalar, whole).mode.Fail?
    ensures !Run(scalar, p).mode.Fail?
    ensures MayBeObject(Run(scalar, r)) && !Run(scalar, r).mode.Fail?
  {
    PrefixMayBeObject(scalar, p, whole);
    if r != p {
      PartsInString(scalar, p, r, |r|);
      assert r[..|r|] == r;
    }
  }

  /** Cut an object text anywhere, be it well formed or one that reads only after repair.  With k
      top-level commas before the cut, the recovered value is an object whose first k members are
      exactly the original ones; at most one more follows, and it is filed under the original key
      of the member that was cut. */
  lemma CutKeepsCompletedMembers(scalar: string -> bool, t: string, ms: seq<Member>, cut: nat)
    requires ParseWithRepair(scalar, t) == Some(Obj(ms)) && cut <= |t|
    ensures Recovers(ParseStreaming(scalar, Some(t[..cut])), ms, SurveyOf(t[..cut]).commas)
  {
    var s := t[..cut];
    var r, whole := Repair(s, false), Repair(t, false);
    ReadsAsRepaired(scalar, t);
    var p := CutRepair(t, cut, false);
    CutTextMayBeObject(scalar, p, r, whole);
    CutTextShares(scalar, t, cut, p);
    SharedTextRecovers(scalar, whole, ms, r);
    RecoveryReadsRepairedText(scalar, s);
    RepairKeepsSurvey(NOTHING_READ, s);
  }

  lemma BlankTextRecovers(scalar: string -> bool, ms: seq<Member>, s: string)
    requires !Run(scalar, s).mode.Fail? && MayBeObject(Run(scalar, s)) && !InObject(Run(scalar, s))
    ensures Recovers(ParseStreaming(scalar, Some(s)), ms, SurveyOf(s).commas)
  {
    ReaderAgreesWithSurvey(scalar, s);
    ExpectingIsBlank(scalar, s);
    AllWhitespaceIsBlank(s);
  }

  predicate DistinctKeys(ms: seq<Member>) {
    forall i, j :: 0 <= i < j < |ms| ==> ms[i].key != ms[j].key
  }

  /** The value an object holds under a key: the last one written. */
  function Lookup(ms: seq<Member>, key: string): Option<Value> {
    if ms == [] then None
    else if ms[|ms| - 1].key == key then Some(ms[|ms| - 1].value)
    else Lookup(ms[..|ms| - 1], key)
  }

  lemma {:induction false} LookupDistinct(ms: seq<Member>, i: nat)
    requires i < |ms| && DistinctKeys(ms)
    ensures Lookup(ms, ms[i].key) == Some(ms[i].value)
  {
    if i < |ms| - 1 {
      LookupDistinct(ms[..|ms| - 1], i);
    }
  }

  /** With distinct keys every completed member is still there under its key, unchanged. */
  lemma CompletedFieldsSurvive(scalar: string -> bool, t: string, ms: seq<Member>, cut: nat, i: nat)
    requires ParseWithRepair(scalar, t) == Some(Obj(ms)) && DistinctKeys(ms) && cut <= |t|
    requires i < SurveyOf(t[..cut]).commas
    ensures var v := ParseStreaming(scalar, Some(t[..cut]));
            v.Obj? && i < |ms| && Lookup(v.members, ms[i].key) == Some(ms[i].value)
  {
    CutKeepsCompletedMembers(scalar, t, ms, cut);
    RecoveredFields(ParseStreaming(scalar, Some(t[..cut])), ms, SurveyOf(t[..cut]).commas, i);
  }

  lemma RecoveredFields(v: Value, ms: seq<Member>, k: nat, i: nat)
    requires Recovers(v, ms, k) && DistinctKeys(ms) && i < k
    ensures Lookup(v.members, ms[i].key) == Some(ms[i].value)
  {
    assert forall j :: 0 <= j < |v.members| ==> v.members[j].key == ms[j].key by {
      assert forall j :: 0 <= j < k ==> v.members[..k][j] == ms[..k][j];
    }
    LookupDistinct(v.members, i);
    assert v.members[..k][i] == ms[..k][i];
  }

  /** Any text whose first non-blank character is an opening brace yields an object. */
  lemma BraceTextsYieldObjects(scalar: string -> bool, blank: string, rest: string)
    requires AllWhitespace(blank)
    ensures ParseStreaming(scalar, Some(blank + ['{'] + rest)).Obj?
  {
    var pre := blank + ['{'];
    var s := pre + rest;
    var g := Goal([], None);
    BraceAnchor(scalar, blank);
    assert Repair(pre + rest, false) == pre + Repair(rest, false);
    var r := Repair(s, false);
    AnchoredIsNotBlank(pre, s);
    AnchorHolds(scalar, pre, g, s);
    var attempts := Attempts(scalar, Candidates(r));
    var at := LastValueSource(attempts);
    if at >= 0 {
      LaterCutsContain(pre, r, at);
      AnchorHolds(scalar, pre, g, Candidates(r)[at]);
    }
  }
}
