/** Message-anchored tool loading: which tool definitions wait for the transcript to load them. */
module DeferredTools {
  import opened Messages

  datatype Tool = Tool(name: string, definition: string)

  /** A tool under its normalized name. */
  datatype Named = Named(name: string, tool: Tool)

  datatype Placement = Placement(immediate: seq<Tool>, deferred: seq<Named>)

  // ---------------------------------------------------------------------
  // One definition per name.

  function NamesOf(tools: seq<Named>): (names: seq<string>)
    ensures |names| == |tools|
    ensures forall i :: 0 <= i < |tools| ==> names[i] == tools[i].name
  {
    seq(|tools|, i requires 0 <= i < |tools| => tools[i].name)
  }

  function IndexOf(tools: seq<Named>, name: string): (i: nat)
    ensures i <= |tools|
    ensures i < |tools| ==> tools[i].name == name
    ensures forall j :: 0 <= j < i ==> tools[j].name != name
  {
    if tools == [] || tools[0].name == name then 0 else 1 + IndexOf(tools[1..], name)
  }

  function Upsert(tools: seq<Named>, name: string, tool: Tool): seq<Named> {
    var i := IndexOf(tools, name);
    if i < |tools| then tools[i := Named(name, tool)] else tools + [Named(name, tool)]
  }

  function Unique(tools: seq<Tool>, normalize: string -> string): seq<Named> {
    if tools == [] then []
    else
      var last := tools[|tools| - 1];
      Upsert(Unique(tools[..|tools| - 1], normalize), normalize(last.name), last)
  }

  /** The distinct names of a sequence, in order of first occurrence. */
  function FirstOccurrences(names: seq<string>): seq<string> {
    if names == [] then []
    else
      var init := names[..|names| - 1];
      var last := names[|names| - 1];
      if last in init then FirstOccurrences(init) else FirstOccurrences(init) + [last]
  }

  function NormalizedNames(tools: seq<Tool>, normalize: string -> string): (names: seq<string>)
    ensures |names| == |tools|
    ensures forall i :: 0 <= i < |tools| ==> names[i] == normalize(tools[i].name)
  {
    seq(|tools|, i requires 0 <= i < |tools| => normalize(tools[i].name))
  }

  /** `tool` is the last definition given for `name`. */
  predicate IsLastDefinition(tools: seq<Tool>, normalize: string -> string, name: string, tool: Tool) {
    exists i :: 0 <= i < |tools| && tools[i] == tool && normalize(tool.name) == name
      && forall j :: i < j < |tools| ==> normalize(tools[j].name) != name
  }

  lemma {:induction false} FirstOccurrencesMembers(names: seq<string>)
    ensures forall n :: n in FirstOccurrences(names) <==> n in names
  {
    if names != [] {
      FirstOccurrencesMembers(names[..|names| - 1]);
      assert names == names[..|names| - 1] + [names[|names| - 1]];
    }
  }

  lemma LastDefinitionStays(tools: seq<Tool>, normalize: string -> string, name: string, tool: Tool, more: Tool)
    requires IsLastDefinition(tools, normalize, name, tool) && normalize(more.name) != name
    ensures IsLastDefinition(tools + [more], normalize, name, tool)
  {
    var i :| 0 <= i < |tools| && tools[i] == tool && normalize(tool.name) == name
      && forall j :: i < j < |tools| ==> normalize(tools[j].name) != name;
    assert (tools + [more])[i] == tool;
  }

  lemma LastDefinitionIsNew(tools: seq<Tool>, normalize: string -> string, more: Tool)
    ensures IsLastDefinition(tools + [more], normalize, normalize(more.name), more)
  {
    assert (tools + [more])[|tools|] == more;
  }

  lemma {:induction false} UniqueNames(tools: seq<Tool>, normalize: string -> string)
    ensures NamesOf(Unique(tools, normalize)) == FirstOccurrences(NormalizedNames(tools, normalize))
  {
    if tools != [] {
      var init := tools[..|tools| - 1];
      var last := tools[|tools| - 1];
      var name := normalize(last.name);
      UniqueNames(init, normalize);
      FirstOccurrencesMembers(NormalizedNames(init, normalize));
      var before := Unique(init, normalize);
      var i := IndexOf(before, name);
      assert NormalizedNames(tools, normalize)[..|tools| - 1] == NormalizedNames(init, normalize);
      if i < |before| {
        assert NamesOf(before)[i] == name;
        assert NamesOf(before[i := Named(name, last)]) == NamesOf(before);
      } else {
        assert NamesOf(before + [Named(name, last)]) == NamesOf(before) + [name];
      }
    }
  }

  /** De-duplication keeps the names in order of first occurrence, each once, with the last
      definition given for it. */
  lemma {:induction false} UniqueToolsLastWins(tools: seq<Tool>, normalize: string -> string)
    ensures NamesOf(Unique(tools, normalize)) == FirstOccurrences(NormalizedNames(tools, normalize))
    ensures forall e :: e in Unique(tools, normalize) ==> IsLastDefinition(tools, normalize, e.name, e.tool)
  {
    UniqueNames(tools, normalize);
    if tools != [] {
      var init := tools[..|tools| - 1];
      var last := tools[|tools| - 1];
      UniqueToolsLastWins(init, normalize);
      UniqueIsDistinct(init, normalize);
      LastDefinitionIsNew(init, normalize, last);
      assert tools == init + [last];
      forall e | e in Unique(tools, normalize)
        ensures IsLastDefinition(tools, normalize, e.name, e.tool)
      {
        if e.name != normalize(last.name) {
          assert e in Unique(init, normalize);
          LastDefinitionStays(init, normalize, e.name, e.tool, last);
        } else {
          UpsertPins(Unique(init, normalize), e.name, last, e);
        }
      }
    }
  }

  predicate DistinctNames(tools: seq<Named>) {
    forall i, j :: 0 <= i < j < |tools| ==> tools[i].name != tools[j].name
  }

  lemma UpsertPins(tools: seq<Named>, name: string, tool: Tool, e: Named)
    requires DistinctNames(tools) && e in Upsert(tools, name, tool) && e.name == name
    ensures e.tool == tool
  {
    var i := IndexOf(tools, name);
    var k :| 0 <= k < |Upsert(tools, name, tool)| && Upsert(tools, name, tool)[k] == e;
  }

  lemma {:induction false} UniqueIsDistinct(tools: seq<Tool>, normalize: string -> string)
    ensures DistinctNames(Unique(tools, normalize))
  {
    if tools != [] {
      UniqueIsDistinct(tools[..|tools| - 1], normalize);
    }
  }

  // ---------------------------------------------------------------------
  // What the transcript says about tools.

  /** A tool is called, or a tool result announces it. */
  datatype Mark = Uses(name: string) | Adds(name: string)

  function UseMarks(calls: seq<ToolCall>, normalize: string -> string): seq<Mark> {
    if calls == [] then [] else [Uses(normalize(calls[0].name))] + UseMarks(calls[1..], normalize)
  }

  function AddMarks(names: seq<string>, normalize: string -> string): seq<Mark> {
    if names == [] then [] else [Adds(normalize(names[0]))] + AddMarks(names[1..], normalize)
  }

  function AddedNames(result: ToolResult): seq<string> {
    match result.addedToolNames
    case None => []
    case Some(names) => names
  }

  function MessageMarks(message: Message, normalize: string -> string): seq<Mark> {
    match message
    case AssistantMessage(a) => UseMarks(CallsOf(a.content), normalize)
    case ToolResultMessage(result) => AddMarks(AddedNames(result), normalize)
    case UserMessage(_, _) => []
  }

  function TranscriptMarks(messages: seq<Message>, normalize: string -> string): seq<Mark> {
    if messages == [] then []
    else MessageMarks(messages[0], normalize) + TranscriptMarks(messages[1..], normalize)
  }

  /** The tool is announced at `i` and not called before. */
  predicate FreshAt(marks: seq<Mark>, i: nat, name: string)
    requires i < |marks|
  {
    marks[i] == Adds(name) && Uses(name) !in marks[..i]
  }

  predicate IsDeferred(marks: seq<Mark>, name: string) {
    exists i :: 0 <= i < |marks| && FreshAt(marks, i, name)
  }

  datatype Scan = Scan(used: set<string>, deferred: set<string>)

  function ScanStep(s: Scan, mark: Mark): Scan {
    match mark
    case Uses(name) => s.(used := s.used + {name})
    case Adds(name) => if name in s.used then s else s.(deferred := s.deferred + {name})
  }

  function ScanMarks(s: Scan, marks: seq<Mark>): Scan
    decreases |marks|
  {
    if marks == [] then s else ScanMarks(ScanStep(s, marks[0]), marks[1..])
  }

  lemma {:induction false} ScanAppend(s: Scan, a: seq<Mark>, b: seq<Mark>)
    ensures ScanMarks(s, a + b) == ScanMarks(ScanMarks(s, a), b)
    decreases |a|
  {
    if a == [] {
      assert a + b == b;
    } else {
      assert (a + b)[1..] == a[1..] + b;
      ScanAppend(ScanStep(s, a[0]), a[1..], b);
    }
  }

  /** The scan defers exactly the tools announced before any call of them. */
  lemma {:induction false} ScanDefersFreshTools(marks: seq<Mark>)
    ensures var s := ScanMarks(Scan({}, {}), marks);
            && (forall n :: n in s.used <==> Uses(n) in marks)
            && (forall n :: n in s.deferred <==> IsDeferred(marks, n))
  {
    var s := ScanMarks(Scan({}, {}), marks);
    if marks != [] {
      var init := marks[..|marks| - 1];
      var last := marks[|marks| - 1];
      assert marks == init + [last];
      ScanDefersFreshTools(init);
      ScanAppend(Scan({}, {}), init, [last]);
      var s0 := ScanMarks(Scan({}, {}), init);
      assert ScanMarks(s0, [last]) == ScanStep(s0, last);
      forall n
        ensures n in s.deferred <==> IsDeferred(marks, n)
      {
        assert marks[..|init|] == init;
        if IsDeferred(init, n) {
          var i :| 0 <= i < |init| && FreshAt(init, i, n);
          assert marks[..i] == init[..i] && FreshAt(marks, i, n);
        }
        if IsDeferred(marks, n) {
          var i :| 0 <= i < |marks| && FreshAt(marks, i, n);
          if i < |init| {
            assert marks[..i] == init[..i] && FreshAt(init, i, n);
          }
        }
        if last == Adds(n) && n !in s0.used {
          assert FreshAt(marks, |init|, n);
        }
      }
    }
  }

  // ---------------------------------------------------------------------
  // The placement.

  function ImmediateOf(tools: seq<Named>, deferredNames: set<string>): seq<Tool> {
    if tools == [] then []
    else (if tools[0].name in deferredNames then [] else [tools[0].tool]) + ImmediateOf(tools[1..], deferredNames)
  }

  function DeferredOf(tools: seq<Named>, deferredNames: set<string>): seq<Named> {
    if tools == [] then []
    else (if tools[0].name in deferredNames then [tools[0]] else []) + DeferredOf(tools[1..], deferredNames)
  }

  function SplitDeferred(tools: seq<Tool>, messages: seq<Message>, enabled: bool,
                         normalize: string -> string): Placement {
    var unique := Unique(tools, normalize);
    var names := if enabled then ScanMarks(Scan({}, {}), TranscriptMarks(messages, normalize)).deferred else {};
    Placement(ImmediateOf(unique, names), DeferredOf(unique, names))
  }

  /** `whole` is an order-preserving merge of `left` and `right`. */
  predicate Merges(left: seq<Tool>, right: seq<Tool>, whole: seq<Tool>)
    decreases |whole|
  {
    if whole == [] then left == [] && right == []
    else
      || (left != [] && left[0] == whole[0] && Merges(left[1..], right, whole[1..]))
      || (right != [] && right[0] == whole[0] && Merges(left, right[1..], whole[1..]))
  }

  function ToolsOf(tools: seq<Named>): (out: seq<Tool>)
    ensures |out| == |tools|
  {
    seq(|tools|, i requires 0 <= i < |tools| => tools[i].tool)
  }

  /** Immediate and deferred tools partition the tools in order; deferred are exactly those whose
      name is to be deferred. */
  lemma {:induction false} PlacementPartitions(tools: seq<Named>, deferredNames: set<string>)
    ensures Merges(ImmediateOf(tools, deferredNames), ToolsOf(DeferredOf(tools, deferredNames)), ToolsOf(tools))
    ensures forall e :: e in DeferredOf(tools, deferredNames) <==> e in tools && e.name in deferredNames
  {
    if tools != [] {
      var rest := tools[1..];
      PlacementPartitions(rest, deferredNames);
      assert ToolsOf(tools)[1..] == ToolsOf(rest);
      if tools[0].name in deferredNames {
        assert ToolsOf(DeferredOf(tools, deferredNames))[1..] == ToolsOf(DeferredOf(rest, deferredNames));
        assert ImmediateOf(tools, deferredNames) == ImmediateOf(rest, deferredNames);
      } else {
        assert DeferredOf(tools, deferredNames) == DeferredOf(rest, deferredNames);
        assert ImmediateOf(tools, deferredNames)[1..] == ImmediateOf(rest, deferredNames);
      }
    }
  }

  // ---------------------------------------------------------------------
  // The loops.

  method UniqueTools(tools: seq<Tool>, normalize: string -> string) returns (unique: seq<Named>)
    ensures unique == Unique(tools, normalize)
  {
    unique := [];
    for i := 0 to |tools|
      invariant unique == Unique(tools[..i], normalize)
    {
      assert tools[..i + 1][..i] == tools[..i];
      var name := normalize(tools[i].name);
      var at := 0;
      while at < |unique| && unique[at].name != name
        invariant 0 <= at <= |unique|
        invariant forall j :: 0 <= j < at ==> unique[j].name != name
      {
        at := at + 1;
      }
      assert at == IndexOf(unique, name);
      if at < |unique| {
        unique := unique[at := Named(name, tools[i])];
      } else {
        unique := unique + [Named(name, tools[i])];
      }
    }
    assert tools[..|tools|] == tools;
  }

  method RecordCalls(used: set<string>, deferred: set<string>, calls: seq<ToolCall>, normalize: string -> string)
    returns (used': set<string>)
    ensures ScanMarks(Scan(used, deferred), UseMarks(calls, normalize)) == Scan(used', deferred)
  {
    used' := used;
    for k := 0 to |calls|
      invariant ScanMarks(Scan(used', deferred), UseMarks(calls[k..], normalize))
             == ScanMarks(Scan(used, deferred), UseMarks(calls, normalize))
    {
      assert calls[k..][1..] == calls[k + 1..];
      used' := used' + {normalize(calls[k].name)};
    }
  }

  method RecordAdditions(used: set<string>, deferred: set<string>, names: seq<string>, normalize: string -> string)
    returns (deferred': set<string>)
    ensures ScanMarks(Scan(used, deferred), AddMarks(names, normalize)) == Scan(used, deferred')
  {
    deferred' := deferred;
    for k := 0 to |names|
      invariant ScanMarks(Scan(used, deferred'), AddMarks(names[k..], normalize))
             == ScanMarks(Scan(used, deferred), AddMarks(names, normalize))
    {
      assert names[k..][1..] == names[k + 1..];
      var name := normalize(names[k]);
      if name !in used {
        deferred' := deferred' + {name};
      }
    }
  }

  method ScanTranscript(messages: seq<Message>, normalize: string -> string) returns (deferred: set<string>)
    ensures deferred == ScanMarks(Scan({}, {}), TranscriptMarks(messages, normalize)).deferred
  {
    deferred := {};
    var used: set<string> := {};
    for i := 0 to |messages|
      invariant ScanMarks(Scan(used, deferred), TranscriptMarks(messages[i..], normalize))
             == ScanMarks(Scan({}, {}), TranscriptMarks(messages, normalize))
    {
      assert messages[i..][1..] == messages[i + 1..];
      ScanAppend(Scan(used, deferred), MessageMarks(messages[i], normalize),
                 TranscriptMarks(messages[i + 1..], normalize));
      match messages[i]
      case AssistantMessage(a) =>
        used := RecordCalls(used, deferred, CallsOf(a.content), normalize);
      case ToolResultMessage(result) =>
        deferred := RecordAdditions(used, deferred, AddedNames(result), normalize);
      case UserMessage(_, _) =>
    }
  }

  method SplitDeferredTools(tools: seq<Tool>, messages: seq<Message>, enabled: bool, normalize: string -> string)
    returns (placement: Placement)
    ensures placement == SplitDeferred(tools, messages, enabled, normalize)
  {
    var unique := UniqueTools(tools, normalize);
    var names: set<string> := {};
    if enabled {
      names := ScanTranscript(messages, normalize);
    }
    var immediate, deferred := PartitionTools(unique, names);
    placement := Placement(immediate, deferred);
  }

  method PartitionTools(tools: seq<Named>, names: set<string>) returns (immediate: seq<Tool>, deferred: seq<Named>)
    ensures immediate == ImmediateOf(tools, names) && deferred == DeferredOf(tools, names)
  {
    immediate, deferred := [], [];
    for i := 0 to |tools|
      invariant immediate + ImmediateOf(tools[i..], names) == ImmediateOf(tools, names)
      invariant deferred + DeferredOf(tools[i..], names) == DeferredOf(tools, names)
    {
      assert tools[i..][1..] == tools[i + 1..];
      ghost var moreImmediate, moreDeferred := ImmediateOf(tools[i + 1..], names), DeferredOf(tools[i + 1..], names);
      if tools[i].name in names {
        assert deferred + ([tools[i]] + moreDeferred) == (deferred + [tools[i]]) + moreDeferred;
        assert [] + moreImmediate == moreImmediate;
        deferred := deferred + [tools[i]];
      } else {
        assert immediate + ([tools[i].tool] + moreImmediate) == (immediate + [tools[i].tool]) + moreImmediate;
        assert [] + moreDeferred == moreDeferred;
        immediate := immediate + [tools[i].tool];
      }
    }
  }
}
