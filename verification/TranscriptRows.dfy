/**
 The transcript's row model (`packages/desktop/src/components/transcript-rows.ts`):
 messages turned, in one pass, into the rows the list renders.
 */
module TranscriptRows {
  import opened Wrappers

  datatype Status = Streaming | Running | Completed | Error

  datatype Part =
    | Text(text: string)
    | Reasoning(text: string)
    | Tool(id: string, name: string, status: Status)

  datatype Outcome = Succeeded | Interrupted | Failed

  datatype Message =
    | User(id: string, text: string, created: int)
    | Assistant(id: string, model: string, content: seq<Part>, completed: Option<int>,
                retry: Option<string>, error: Option<string>)
    | Synthetic(id: string, text: string)
    | Shell(id: string, command: string)
    | Compaction(id: string, running: bool)
    | Idle(id: string, outcome: Outcome, reason: string)
    | Hidden(id: string)

  /** One line inside a tool group. */
  datatype GroupItem = GroupItem(key: string, part: Part)

  datatype Meta = Meta(model: string, durationMs: Option<int>)

  datatype Row =
    | UserRow(key: string, text: string, created: int)
    | TextRow(key: string, text: string, meta: Option<Meta>)
    | Group(key: string, items: seq<GroupItem>)
    | ToolRow(key: string, tool: Part)
    | AgentRow(key: string, tool: Part)
    | Note(key: string, text: string, danger: bool)

  predicate White(c: char) {
    || '\t' <= c <= '\r' || c == ' ' || c == '\U{A0}' || c == '\U{1680}' || '\U{2000}' <= c <= '\U{200A}'
    || c == '\U{2028}' || c == '\U{2029}' || c == '\U{202F}' || c == '\U{205F}' || c == '\U{3000}' || c == '\U{FEFF}'
  }

  /** `text.trim() === ""` */
  predicate Blank(text: string) { forall i :: 0 <= i < |text| ==> White(text[i]) }

  // ---- What each message has to show ----

  /** Something met while reading the messages: a prompt, text, a group's line, a
      row of its own, or the time a step was done. */
  datatype Shown =
    | Prompt(prompt: Row)
    | Said(key: string, text: string, model: string)
    | Grouped(item: GroupItem)
    | Standing(row: Row)
    | Finished(at: int)

  function Digits(n: nat): string {
    if n < 10 then ["0123456789"[n]] else Digits(n / 10) + ["0123456789"[n % 10]]
  }

  function PartKey(id: string, i: nat): string { id + ":" + Digits(i) }

  function PartShown(id: string, model: string, part: Part, i: nat): seq<Shown> {
    match part
    case Text(text) => if Blank(text) then [] else [Said(PartKey(id, i), text, model)]
    case Reasoning(text) => if Blank(text) then [] else [Grouped(GroupItem(PartKey(id, i), part))]
    case Tool(toolId, name, status) =>
      var key := "tool:" + toolId;
      if name == "subagent" || name == "task" then [Standing(AgentRow(key, part))]
      else if name == "todowrite" then []
      else if name == "question" && status != Error then
        if status == Completed then [Standing(ToolRow(key, part))] else []
      else [Grouped(GroupItem(key, part))]
  }

  /** The first `n` parts. */
  function PartsShown(m: Message, n: nat): seq<Shown>
    requires m.Assistant? && n <= |m.content|
  {
    if n == 0 then [] else PartsShown(m, n - 1) + PartShown(m.id, m.model, m.content[n - 1], n - 1)
  }

  function NoteOf(key: string, text: Option<string>, danger: bool): seq<Shown> {
    if text.None? then [] else [Standing(Note(key, text.value, danger))]
  }

  /** When the step was done, and what went wrong. */
  function AfterParts(m: Message): seq<Shown>
    requires m.Assistant?
  {
    (if m.completed.None? then [] else [Finished(m.completed.value)])
    + NoteOf(m.id + ":retry", m.retry, false)
    + NoteOf(m.id + ":error", m.error, true)
  }

  function MessageShown(messages: seq<Message>, i: nat): seq<Shown>
    requires i < |messages|
  {
    var m := messages[i];
    match m
    case User(id, text, created) => [Prompt(UserRow(id, text, created))]
    case Assistant(_, _, content, _, _, _) =>
      PartsShown(m, |content|) + AfterParts(m)
    case Synthetic(id, text) => [Standing(Note(id, text, false))]
    case Shell(id, command) => [Standing(Note(id, "$ " + command, false))]
    case Compaction(id, running) =>
      [Standing(Note(id, if running then "Compacting context…" else "Context compacted", false))]
    case Idle(id, outcome, reason) =>
      if outcome == Succeeded then []
      else if outcome == Interrupted then [Standing(Note(id, "Interrupted", false))]
      // A failed turn already shows its error on the assistant row.
      else if i > 0 && messages[i - 1].Assistant? && messages[i - 1].error.Some? then []
      else [Standing(Note(id, "Failed: " + reason, true))]
    case Hidden(_) => []
  }

  /** All that the first `n` messages show, in order. */
  function AllShown(messages: seq<Message>, n: nat): seq<Shown>
    requires n <= |messages|
  {
    if n == 0 then [] else AllShown(messages, n - 1) + MessageShown(messages, n - 1)
  }

  // ---- The builder ----

  /** The turn being read: when its prompt was sent, its latest text row and the
      latest step to finish. */
  datatype Turn = Turn(started: Option<int>, text: Option<(nat, string)>, completed: Option<int>)

  const NoTurn := Turn(None, None, None)

  datatype Build = Build(out: seq<Row>, group: seq<GroupItem>, turn: Turn)

  const Empty := Build([], [], NoTurn)

  function Duration(turn: Turn): Option<int> {
    if turn.started.Some? && turn.completed.Some? && turn.completed.value >= turn.started.value
    then Some(turn.completed.value - turn.started.value) else None
  }

  function EndTurn(b: Build): Build {
    var out :=
      if HasOpenText(b) then
        b.out[b.turn.text.value.0 := b.out[b.turn.text.value.0].(meta := Some(Meta(b.turn.text.value.1, Duration(b.turn))))]
      else b.out;
    b.(out := out, turn := NoTurn)
  }

  predicate HasOpenText(b: Build) {
    b.turn.text.Some? && b.turn.text.value.0 < |b.out| && b.out[b.turn.text.value.0].TextRow?
  }

  function Close(b: Build): Build {
    if b.group == [] then b
    else b.(out := b.out + [Group("group:" + b.group[0].key, b.group)], group := [])
  }

  function Push(b: Build, row: Row): Build {
    var c := Close(b);
    c.(out := c.out + [row])
  }

  function Put(b: Build, shown: Shown): Build {
    match shown
    case Prompt(row) =>
      var e := EndTurn(b);
      Push(e.(turn := e.turn.(started := Some(if row.UserRow? then row.created else 0))), row)
    case Said(key, text, model) =>
      var p := Push(b, TextRow(key, text, None));
      p.(turn := p.turn.(text := Some((|p.out| - 1, model))))
    case Grouped(item) => b.(group := b.group + [item])
    case Standing(row) => Push(b, row)
    case Finished(at) =>
      var before := if b.turn.completed.Some? then b.turn.completed.value else 0;
      b.(turn := b.turn.(completed := Some(if before >= at then before else at)))
  }

  function PutAll(b: Build, shown: seq<Shown>): Build {
    if shown == [] then b else Put(PutAll(b, shown[..|shown| - 1]), shown[|shown| - 1])
  }

  function Finish(b: Build, running: bool): seq<Row> {
    var c := Close(b);
    if running then c.out else EndTurn(c).out
  }

  /** `rowsOf`, as a function of what the messages show. */
  function Rows(shown: seq<Shown>, running: bool): seq<Row> {
    Finish(PutAll(Empty, shown), running)
  }

  lemma {:induction false} PutAllSplit(b: Build, xs: seq<Shown>, ys: seq<Shown>)
    ensures PutAll(b, xs + ys) == PutAll(PutAll(b, xs), ys)
    decreases |ys|
  {
    if ys == [] {
      assert xs + ys == xs;
    } else {
      PutAllSplit(b, xs, ys[..|ys| - 1]);
      assert (xs + ys)[..|xs + ys| - 1] == xs + ys[..|ys| - 1];
    }
  }

  class RowBuilder {
    var out: seq<Row>
    var group: seq<GroupItem>
    var turn: Turn

    ghost function View(): Build
      reads this
    {
      Build(out, group, turn)
    }

    constructor ()
      ensures View() == Empty
    {
      out, group, turn := [], [], NoTurn;
    }

    method Conclude()
      modifies this
      ensures View() == EndTurn(old(View()))
    {
      if turn.text.Some? {
        var (index, model) := turn.text.value;
        if index < |out| && out[index].TextRow? {
          out := out[index := out[index].(meta := Some(Meta(model, Duration(turn))))];
        }
      }
      turn := NoTurn;
    }

    method CloseGroup()
      modifies this
      ensures View() == Close(old(View()))
    {
      if |group| > 0 {
        out := out + [Group("group:" + group[0].key, group)];
      }
      group := [];
    }

    method Add(row: Row)
      modifies this
      ensures View() == Push(old(View()), row)
    {
      CloseGroup();
      out := out + [row];
    }

    method Take(shown: Shown)
      modifies this
      ensures View() == Put(old(View()), shown)
    {
      match shown {
        case Prompt(row) =>
          Conclude();
          turn := turn.(started := Some(if row.UserRow? then row.created else 0));
          Add(row);
        case Said(key, text, model) =>
          Add(TextRow(key, text, None));
          turn := turn.(text := Some((|out| - 1, model)));
        case Grouped(item) =>
          group := group + [item];
        case Standing(row) =>
          Add(row);
        case Finished(at) =>
          var before := if turn.completed.Some? then turn.completed.value else 0;
          turn := turn.(completed := Some(if before >= at then before else at));
      }
    }

    method TakeAll(shown: seq<Shown>)
      modifies this
      ensures View() == PutAll(old(View()), shown)
    {
      for i := 0 to |shown|
        invariant View() == PutAll(old(View()), shown[..i])
      {
        assert shown[..i + 1][..i] == shown[..i];
        Take(shown[i]);
      }
      assert shown[..|shown|] == shown;
    }

    /** An assistant message's parts, one by one. */
    method ReadParts(message: Message)
      requires message.Assistant?
      modifies this
      ensures View() == PutAll(old(View()), PartsShown(message, |message.content|))
    {
      hide Put, PartShown;
      for i := 0 to |message.content|
        invariant View() == PutAll(old(View()), PartsShown(message, i))
      {
        var part := PartShown(message.id, message.model, message.content[i], i);
        PutAllSplit(old(View()), PartsShown(message, i), part);
        TakeAll(part);
      }
    }

    method Read(messages: seq<Message>, index: nat)
      requires index < |messages|
      modifies this
      ensures View() == PutAll(old(View()), MessageShown(messages, index))
    {
      hide Put, PartsShown, PutAll;
      var message := messages[index];
      if message.Assistant? {
        ReadParts(message);
        PutAllSplit(old(View()), PartsShown(message, |message.content|), AfterParts(message));
        TakeAll(AfterParts(message));
      } else {
        TakeAll(MessageShown(messages, index));
      }
    }
  }

  /** `rowsOf` */
  method RowsOf(messages: seq<Message>, running: bool) returns (rows: seq<Row>)
    ensures rows == Rows(AllShown(messages, |messages|), running)
    ensures ShowsAll(messages, Opened(rows))
  {
    hide ShowsAll, Opened;
    RowsShowMessages(messages, running);
    var builder := new RowBuilder();
    for i := 0 to |messages|
      invariant builder.View() == PutAll(Empty, AllShown(messages, i))
    {
      PutAllSplit(Empty, AllShown(messages, i), MessageShown(messages, i));
      builder.Read(messages, i);
    }
    builder.CloseGroup();
    if !running {
      builder.Conclude();
    }
    rows := builder.out;
  }

  // ---- Nothing lost, nothing repeated ----

  /** A row of its own as it was put, without the line under it. */
  function Bare(row: Row): Row {
    if row.TextRow? then row.(meta := None) else row
  }

  datatype Line = InGroup(item: GroupItem) | Alone(row: Row)

  function GroupLines(items: seq<GroupItem>): (lines: seq<Line>)
    ensures |lines| == |items|
  {
    seq(|items|, i requires 0 <= i < |items| => InGroup(items[i]))
  }

  /** The group rows opened out. */
  function Opened(rows: seq<Row>): seq<Line> {
    if rows == [] then []
    else
      var last := rows[|rows| - 1];
      Opened(rows[..|rows| - 1]) + if last.Group? then GroupLines(last.items) else [Alone(Bare(last))]
  }

  function LineOf(shown: Shown): seq<Line> {
    match shown
    case Prompt(row) => [Alone(Bare(row))]
    case Said(key, text, _) => [Alone(TextRow(key, text, None))]
    case Grouped(item) => [InGroup(item)]
    case Standing(row) => [Alone(Bare(row))]
    case Finished(_) => []
  }

  function Lines(shown: seq<Shown>): seq<Line> {
    if shown == [] then [] else Lines(shown[..|shown| - 1]) + LineOf(shown[|shown| - 1])
  }

  /** What is shown never is a group row: those only the builder makes. */
  ghost predicate Plain(shown: seq<Shown>) {
    forall i :: 0 <= i < |shown| ==> PlainOne(shown[i])
  }

  lemma OpenedPush(rows: seq<Row>, row: Row)
    ensures Opened(rows + [row])
            == Opened(rows) + if row.Group? then GroupLines(row.items) else [Alone(Bare(row))]
  {
    assert (rows + [row])[..|rows|] == rows;
  }

  lemma {:induction false} OpenedMeta(rows: seq<Row>, k: nat, meta: Option<Meta>)
    requires k < |rows| && rows[k].TextRow?
    ensures Opened(rows[k := rows[k].(meta := meta)]) == Opened(rows)
    decreases |rows|
  {
    var n := |rows| - 1;
    var marked := rows[k := rows[k].(meta := meta)];
    if k < n {
      OpenedMeta(rows[..n], k, meta);
      assert marked[..n] == rows[..n][k := rows[k].(meta := meta)];
    } else {
      assert marked[..n] == rows[..n];
    }
  }

  lemma OpenedEndTurn(b: Build)
    ensures Opened(EndTurn(b).out) == Opened(b.out)
  {
    if HasOpenText(b) {
      OpenedMeta(b.out, b.turn.text.value.0, Some(Meta(b.turn.text.value.1, Duration(b.turn))));
    }
  }

  lemma OpenedClose(b: Build)
    ensures Opened(Close(b).out) == Opened(b.out) + GroupLines(b.group)
  {
    if b.group == [] {
      assert Opened(b.out) + [] == Opened(b.out);
    } else {
      OpenedPush(b.out, Group("group:" + b.group[0].key, b.group));
    }
  }

  ghost predicate PlainOne(shown: Shown) {
    match shown
    case Prompt(row) => row.UserRow?
    case Standing(row) => row.ToolRow? || row.AgentRow? || row.Note?
    case _ => true
  }

  lemma OpenedPut(b: Build, row: Row)
    requires !row.Group?
    ensures Opened(Push(b, row).out) == Opened(b.out) + GroupLines(b.group) + [Alone(Bare(row))]
  {
    OpenedClose(b);
    OpenedPush(Close(b).out, row);
  }

  lemma LinesPut(b: Build, shown: Shown)
    requires PlainOne(shown)
    ensures var c := Put(b, shown);
            Opened(c.out) + GroupLines(c.group) == Opened(b.out) + GroupLines(b.group) + LineOf(shown)
  {
    hide Opened, Push, Bare;
    var c := Put(b, shown);
    match shown
    case Prompt(row) =>
      OpenedEndTurn(b);
      var e := EndTurn(b);
      OpenedPut(e.(turn := e.turn.(started := Some(row.created))), row);
      PushClosed(e.(turn := e.turn.(started := Some(row.created))), row);
    case Said(key, text, model) =>
      OpenedPut(b, TextRow(key, text, None));
      PushClosed(b, TextRow(key, text, None));
      NoLine(TextRow(key, text, None));
    case Grouped(item) =>
      assert GroupLines(b.group + [item]) == GroupLines(b.group) + [InGroup(item)];
    case Standing(row) =>
      OpenedPut(b, row);
      PushClosed(b, row);
    case Finished(_) =>
  }

  lemma PushClosed(b: Build, row: Row)
    ensures Push(b, row).group == [] && GroupLines([]) == []
  {
  }

  lemma NoLine(row: Row)
    requires row.TextRow? && row.meta.None?
    ensures Bare(row) == row
  {
  }

  lemma {:induction false} LinesBuilt(shown: seq<Shown>)
    requires Plain(shown)
    ensures var b := PutAll(Empty, shown);
            Opened(b.out) + GroupLines(b.group) == Lines(shown)
  {
    hide Put, LineOf;
    if shown != [] {
      var n := |shown| - 1;
      LinesBuilt(shown[..n]);
      LinesPut(PutAll(Empty, shown[..n]), shown[n]);
    }
  }

  lemma MessageIsPlain(messages: seq<Message>, i: nat)
    requires i < |messages|
    ensures Plain(MessageShown(messages, i))
  {
    if messages[i].Assistant? {
      hide PartsShown;
      PartsArePlain(messages[i], |messages[i].content|);
    }
  }

  lemma {:induction false} MessagesArePlain(messages: seq<Message>, n: nat)
    requires n <= |messages|
    ensures Plain(AllShown(messages, n))
  {
    hide MessageShown, PlainOne;
    if n > 0 {
      MessagesArePlain(messages, n - 1);
      MessageIsPlain(messages, n - 1);
    }
  }

  lemma {:induction false} PartsArePlain(m: Message, n: nat)
    requires m.Assistant? && n <= |m.content|
    ensures Plain(PartsShown(m, n))
  {
    if n > 0 {
      PartsArePlain(m, n - 1);
    }
  }

  /** Opening out the groups gives exactly what the messages show, in order. */
  lemma RowsOpenToLines(messages: seq<Message>, running: bool)
    ensures Opened(Rows(AllShown(messages, |messages|), running)) == Lines(AllShown(messages, |messages|))
  {
    var shown := AllShown(messages, |messages|);
    var b := PutAll(Empty, shown);
    MessagesArePlain(messages, |messages|);
    LinesBuilt(shown);
    OpenedClose(b);
    OpenedEndTurn(Close(b));
  }

  // ---- What is shown, told by the messages alone ----

  /** Part `j` of the message shows the line: text that is not blank under its own key;
      thinking that is not blank, and a tool call, inside a group; a subagent, and a
      finished question, on its own; a todo list and a waiting question not at all. */
  ghost predicate PartShows(m: Message, j: nat, line: Line)
    requires m.Assistant? && j < |m.content|
  {
    var part, own := m.content[j], m.id + ":" + Digits(j);
    match part
    case Text(text) => line == Alone(TextRow(own, text, None)) && exists k :: 0 <= k < |text| && !White(text[k])
    case Reasoning(text) => line == InGroup(GroupItem(own, part)) && exists k :: 0 <= k < |text| && !White(text[k])
    case Tool(tool, name, status) =>
      var key := "tool:" + tool;
      && name != "todowrite"
      && (name == "question" ==> status.Error? || status.Completed?)
      && line == if name in {"subagent", "task"} then Alone(AgentRow(key, part))
                 else if name == "question" && status.Completed? then Alone(ToolRow(key, part))
                 else InGroup(GroupItem(key, part))
  }

  /** Place `j` of message `i` shows the line: behind an assistant's parts come the places
      of its retry and of its error. */
  ghost predicate ShowsAt(messages: seq<Message>, i: nat, j: nat, line: Line)
    requires i < |messages|
  {
    match messages[i]
    case Assistant(id, _, content, _, retry, error) =>
      || (j < |content| && PartShows(messages[i], j, line))
      || (j == |content| && retry.Some? && line == Alone(Note(id + ":retry", retry.value, false)))
      || (j == |content| + 1 && error.Some? && line == Alone(Note(id + ":error", error.value, true)))
    case User(id, text, created) => j == 0 && line == Alone(UserRow(id, text, created))
    case Synthetic(id, text) => j == 0 && line == Alone(Note(id, text, false))
    case Shell(id, command) => j == 0 && line == Alone(Note(id, "$ " + command, false))
    case Compaction(id, running) =>
      j == 0 && line == Alone(Note(id, if running then "Compacting context…" else "Context compacted", false))
    case Idle(id, outcome, reason) =>
      && j == 0 && !outcome.Succeeded?
      && (outcome.Failed? ==> !(i > 0 && messages[i - 1].Assistant? && messages[i - 1].error.Some?))
      && line == Alone(if outcome.Interrupted? then Note(id, "Interrupted", false) else Note(id, "Failed: " + reason, true))
    case Hidden(_) => false
  }

  type Place = (nat, nat)

  predicate Before(p: Place, q: Place) { p.0 < q.0 || (p.0 == q.0 && p.1 < q.1) }

  /** The lines are those of these places, and the places come in order. */
  ghost predicate From(messages: seq<Message>, lines: seq<Line>, places: seq<Place>) {
    && |places| == |lines|
    && (forall k :: 0 <= k < |lines| ==> places[k].0 < |messages| && ShowsAt(messages, places[k].0, places[k].1, lines[k]))
    && (forall k, l :: 0 <= k < l < |places| ==> Before(places[k], places[l]))
  }

  /** Exactly one line for each place that shows one, in the order of the places. */
  ghost predicate ShowsAll(messages: seq<Message>, lines: seq<Line>) {
    exists places :: From(messages, lines, places)
      && forall i: nat, j: nat, line :: i < |messages| && ShowsAt(messages, i, j, line) ==> (i, j) in places
  }

  /** All places before `at` have been gone through. */
  ghost predicate UpTo(messages: seq<Message>, lines: seq<Line>, places: seq<Place>, at: Place) {
    && From(messages, lines, places)
    && (forall k :: 0 <= k < |places| ==> Before(places[k], at))
    && (forall i: nat, j: nat, line :: i < |messages| && ShowsAt(messages, i, j, line) && Before((i, j), at) ==>
          (i, j) in places)
  }

  lemma OnePlace(messages: seq<Message>, lines: seq<Line>, places: seq<Place>, i: nat, j: nat, more: seq<Line>)
    returns (all: seq<Place>)
    requires UpTo(messages, lines, places, (i, j)) && i < |messages| && |more| <= 1
    requires more == [] ==> forall line :: !ShowsAt(messages, i, j, line)
    requires more != [] ==> ShowsAt(messages, i, j, more[0])
    ensures UpTo(messages, lines + more, all, (i, j + 1))
  {
    hide ShowsAt;
    if more == [] {
      all := places;
      assert lines + more == lines;
      forall a: nat, b: nat, line | a < |messages| && ShowsAt(messages, a, b, line) && Before((a, b), (i, j + 1))
        ensures (a, b) in places
      {
        assert (a, b) != (i, j);
      }
    } else {
      all := places + [(i, j)];
      assert forall k :: 0 <= k < |places| ==> all[k] == places[k] && (lines + more)[k] == lines[k];
      assert all[|places|] == (i, j) && (lines + more)[|lines|] == more[0];
    }
  }

  lemma {:induction false} LinesAppend(xs: seq<Shown>, ys: seq<Shown>)
    ensures Lines(xs + ys) == Lines(xs) + Lines(ys)
    decreases |ys|
  {
    hide LineOf;
    if ys == [] {
      assert xs + ys == xs;
    } else {
      LinesAppend(xs, ys[..|ys| - 1]);
      assert (xs + ys)[..|xs + ys| - 1] == xs + ys[..|ys| - 1];
    }
  }

  lemma LinesOne(shown: seq<Shown>)
    requires |shown| <= 1
    ensures Lines(shown) == if shown == [] then [] else LineOf(shown[0])
  {
    if shown != [] {
      assert shown[..0] == [];
    }
  }

  lemma PartLine(messages: seq<Message>, i: nat, j: nat)
    requires i < |messages| && messages[i].Assistant? && j < |messages[i].content|
    ensures var m := messages[i];
            var more := Lines(PartShown(m.id, m.model, m.content[j], j));
            && |more| <= 1
            && (more == [] ==> forall line :: !ShowsAt(messages, i, j, line))
            && (more != [] ==> ShowsAt(messages, i, j, more[0]))
  {
    hide Lines, Digits;
    var m := messages[i];
    LinesOne(PartShown(m.id, m.model, m.content[j], j));
  }

  lemma NoteLine(shown: seq<Shown>, key: string, text: Option<string>, danger: bool)
    requires shown == NoteOf(key, text, danger)
    ensures Lines(shown) == if text.None? then [] else [Alone(Note(key, text.value, danger))]
  {
    hide Lines;
    LinesOne(shown);
  }

  lemma {:induction false} PartsPlaces(messages: seq<Message>, lines: seq<Line>, places: seq<Place>, i: nat, n: nat)
    returns (all: seq<Place>)
    requires i < |messages| && messages[i].Assistant? && n <= |messages[i].content|
    requires UpTo(messages, lines, places, (i, 0))
    ensures UpTo(messages, lines + Lines(PartsShown(messages[i], n)), all, (i, n))
    decreases n
  {
    hide UpTo, ShowsAt, PartShown, LineOf;
    var m := messages[i];
    if n == 0 {
      all := places;
      LinesOne([]);
      assert lines + [] == lines;
    } else {
      var before := PartsPlaces(messages, lines, places, i, n - 1);
      var more := PartShown(m.id, m.model, m.content[n - 1], n - 1);
      LinesAppend(PartsShown(m, n - 1), more);
      PartLine(messages, i, n - 1);
      all := OnePlace(messages, lines + Lines(PartsShown(m, n - 1)), before, i, n - 1, Lines(more));
      assert lines + Lines(PartsShown(m, n - 1)) + Lines(more) == lines + (Lines(PartsShown(m, n - 1)) + Lines(more));
    }
  }

  lemma AfterPartsLines(m: Message)
    requires m.Assistant?
    ensures Lines(AfterParts(m)) == Lines(NoteOf(m.id + ":retry", m.retry, false)) + Lines(NoteOf(m.id + ":error", m.error, true))
  {
    hide Lines;
    var done := if m.completed.None? then [] else [Finished(m.completed.value)];
    var retry, error := NoteOf(m.id + ":retry", m.retry, false), NoteOf(m.id + ":error", m.error, true);
    LinesOne(done);
    LinesAppend(done + retry, error);
    LinesAppend(done, retry);
    assert [] + Lines(retry) == Lines(retry);
  }

  lemma AfterPlaces(messages: seq<Message>, lines: seq<Line>, places: seq<Place>, i: nat) returns (all: seq<Place>)
    requires i < |messages| && messages[i].Assistant? && UpTo(messages, lines, places, (i, |messages[i].content|))
    ensures UpTo(messages, lines + Lines(AfterParts(messages[i])), all, (i, |messages[i].content| + 2))
  {
    hide UpTo, Lines, AfterParts;
    var m := messages[i];
    var n := |m.content|;
    var retry, error := NoteOf(m.id + ":retry", m.retry, false), NoteOf(m.id + ":error", m.error, true);
    AfterPartsLines(m);
    NoteLine(retry, m.id + ":retry", m.retry, false);
    NoteLine(error, m.id + ":error", m.error, true);
    all := OnePlace(messages, lines, places, i, n, Lines(retry));
    all := OnePlace(messages, lines + Lines(retry), all, i, n + 1, Lines(error));
    assert lines + Lines(retry) + Lines(error) == lines + (Lines(retry) + Lines(error));
  }

  lemma NextMessage(messages: seq<Message>, lines: seq<Line>, places: seq<Place>, i: nat, n: nat)
    requires i < |messages| && UpTo(messages, lines, places, (i, n))
    requires forall j: nat, line :: j >= n ==> !ShowsAt(messages, i, j, line)
    ensures UpTo(messages, lines, places, (i + 1, 0))
  {
    hide ShowsAt;
    forall a: nat, b: nat, line | a < |messages| && ShowsAt(messages, a, b, line) && Before((a, b), (i + 1, 0))
      ensures (a, b) in places
    {
      assert Before((a, b), (i, n));
    }
  }

  lemma OtherLine(messages: seq<Message>, i: nat)
    requires i < |messages| && !messages[i].Assistant?
    ensures var more := Lines(MessageShown(messages, i));
            && |more| <= 1
            && (more == [] ==> forall line :: !ShowsAt(messages, i, 0, line))
            && (more != [] ==> ShowsAt(messages, i, 0, more[0]))
    ensures forall j: nat, line :: j >= 1 ==> !ShowsAt(messages, i, j, line)
  {
    hide Lines;
    LinesOne(MessageShown(messages, i));
  }

  lemma MessagePlaces(messages: seq<Message>, lines: seq<Line>, places: seq<Place>, i: nat) returns (all: seq<Place>)
    requires i < |messages| && UpTo(messages, lines, places, (i, 0))
    ensures UpTo(messages, lines + Lines(MessageShown(messages, i)), all, (i + 1, 0))
  {
    hide UpTo, Lines, PartsShown, AfterParts;
    var m := messages[i];
    if m.Assistant? {
      var parts := PartsShown(m, |m.content|);
      all := PartsPlaces(messages, lines, places, i, |m.content|);
      all := AfterPlaces(messages, lines + Lines(parts), all, i);
      LinesAppend(parts, AfterParts(m));
      assert lines + Lines(parts) + Lines(AfterParts(m)) == lines + (Lines(parts) + Lines(AfterParts(m)));
      NextMessage(messages, lines + Lines(MessageShown(messages, i)), all, i, |m.content| + 2);
    } else {
      OtherLine(messages, i);
      all := OnePlace(messages, lines, places, i, 0, Lines(MessageShown(messages, i)));
      NextMessage(messages, lines + Lines(MessageShown(messages, i)), all, i, 1);
    }
  }

  lemma NoPlaces(messages: seq<Message>)
    ensures UpTo(messages, [], [], (0, 0))
  {
  }

  lemma {:induction false} AllPlaces(messages: seq<Message>, n: nat) returns (all: seq<Place>)
    requires n <= |messages|
    ensures UpTo(messages, Lines(AllShown(messages, n)), all, (n, 0))
  {
    hide UpTo, Lines, MessageShown;
    if n == 0 {
      all := [];
      LinesOne([]);
      NoPlaces(messages);
    } else {
      var before := AllPlaces(messages, n - 1);
      all := MessagePlaces(messages, Lines(AllShown(messages, n - 1)), before, n - 1);
      LinesAppend(AllShown(messages, n - 1), MessageShown(messages, n - 1));
    }
  }

  /** Opened out, the rows are exactly the lines of the places that show one, in order. */
  lemma RowsShowMessages(messages: seq<Message>, running: bool)
    ensures ShowsAll(messages, Opened(Rows(AllShown(messages, |messages|), running)))
  {
    hide Lines, Opened, Rows, AllShown, ShowsAt;
    RowsOpenToLines(messages, running);
    var all := AllPlaces(messages, |messages|);
    var lines := Lines(AllShown(messages, |messages|));
    forall i: nat, j: nat, line | i < |messages| && ShowsAt(messages, i, j, line)
      ensures (i, j) in all
    {
      assert Before((i, j), (|messages|, 0));
    }
  }

  /** The number the digits spell. */
  function Spelled(digits: string): nat {
    if digits == [] then 0
    else
      var last := digits[|digits| - 1];
      10 * Spelled(digits[..|digits| - 1]) + if '0' <= last <= '9' then last as nat - '0' as nat else 0
  }

  /** A part's number is told by its key, in digits and with no zero in front. */
  lemma {:induction false} DigitsSpell(n: nat)
    ensures Spelled(Digits(n)) == n
    ensures Digits(n) != [] && (n > 0 ==> Digits(n)[0] != '0')
    ensures forall i :: 0 <= i < |Digits(n)| ==> '0' <= Digits(n)[i] <= '9'
  {
    var d := Digits(n);
    assert d[|d| - 1] == ['0', '1', '2', '3', '4', '5', '6', '7', '8', '9'][n % 10];
    if n < 10 {
      assert d[..|d| - 1] == [];
    } else {
      DigitsSpell(n / 10);
      assert d[..|d| - 1] == Digits(n / 10);
    }
  }

  /** The white space and line terminators of sections 12.2 and 12.3 of ECMA-262. */
  lemma WhiteIs(c: char)
    ensures White(c) <==>
              c as int in {0x09, 0x0A, 0x0B, 0x0C, 0x0D, 0x20, 0xA0, 0x1680, 0x2028, 0x2029, 0x202F, 0x205F, 0x3000, 0xFEFF}
              || 0x2000 <= c as int <= 0x200A
  {
  }

  function Trimmed(text: string): string
    decreases |text|
  {
    if text == [] then []
    else if White(text[0]) then Trimmed(text[1..])
    else if White(text[|text| - 1]) then Trimmed(text[..|text| - 1])
    else text
  }

  /** `text.trim() === ""` */
  lemma {:induction false} BlankIsTrimmed(text: string)
    ensures Blank(text) <==> Trimmed(text) == ""
    decreases |text|
  {
    if text != [] {
      if White(text[0]) {
        BlankIsTrimmed(text[1..]);
        assert text == [text[0]] + text[1..];
      } else if White(text[|text| - 1]) {
        BlankIsTrimmed(text[..|text| - 1]);
        assert text[..|text| - 1][0] == text[0];
      }
    }
  }

  // ---- Groups are runs, and the last text of a finished turn has its line ----

  ghost predicate RunsOnly(rows: seq<Row>) {
    && (forall i :: 0 <= i < |rows| && rows[i].Group? ==>
          rows[i].items != [] && rows[i].key == "group:" + rows[i].items[0].key)
    && (forall i, j :: 0 <= i && j == i + 1 < |rows| ==> !(rows[i].Group? && rows[j].Group?))
  }

  /** No text of the same turn follows. */
  ghost predicate LastText(rows: seq<Row>, p: nat) {
    forall q :: p < q < |rows| && rows[q].TextRow? ==> PromptBetween(rows, p, q)
  }

  ghost predicate PromptBetween(rows: seq<Row>, p: nat, q: nat) {
    exists u :: p < u < q && u < |rows| && rows[u].UserRow?
  }

  ghost predicate MetaRight(rows: seq<Row>, running: bool) {
    forall p :: 0 <= p < |rows| && rows[p].TextRow? ==>
      (rows[p].meta.Some? <==> LastText(rows, p) && (!running || PromptBetween(rows, p, |rows|)))
  }

  /** The latest text of the open turn is the one remembered. */
  ghost predicate Remembers(out: seq<Row>, text: Option<(nat, string)>) {
    if text.Some? then
      var k := text.value.0;
      && k < |out| && out[k].TextRow?
      && (forall q :: k < q < |out| ==> !out[q].TextRow? && !out[q].UserRow?)
    else forall p :: 0 <= p < |out| && out[p].TextRow? ==> PromptBetween(out, p, |out|)
  }

  ghost predicate Inv(b: Build) {
    && RunsOnly(b.out)
    && (b.out != [] ==> !b.out[|b.out| - 1].Group?)
    && MetaRight(b.out, true)
    && Remembers(b.out, b.turn.text)
  }

  lemma PromptPrefix(rows: seq<Row>, more: seq<Row>, p: nat, q: nat)
    requires p < q <= |rows| && rows <= more
    ensures PromptBetween(rows, p, q) <==> PromptBetween(more, p, q)
  {
    if PromptBetween(more, p, q) {
      var u :| p < u < q && u < |more| && more[u].UserRow?;
      assert rows[u].UserRow?;
    }
    if PromptBetween(rows, p, q) {
      var u :| p < u < q && u < |rows| && rows[u].UserRow?;
      assert more[u].UserRow?;
    }
  }

  /** A row that is neither text nor a prompt changes nothing about the others. */
  lemma PushOther(out: seq<Row>, row: Row, text: Option<(nat, string)>)
    requires MetaRight(out, true) && Remembers(out, text) && !row.TextRow? && !row.UserRow?
    ensures MetaRight(out + [row], true) && Remembers(out + [row], text)
  {
    var rows := out + [row];
    forall p | 0 <= p < |out|
      ensures PromptBetween(rows, p, |rows|) <==> PromptBetween(out, p, |out|)
      ensures LastText(rows, p) <==> LastText(out, p)
    {
      PushKeepsLast(out, row, p);
    }
  }

  lemma PushKeepsLast(out: seq<Row>, row: Row, p: nat)
    requires p < |out|
    ensures !row.UserRow? ==> (PromptBetween(out + [row], p, |out| + 1) <==> PromptBetween(out, p, |out|))
    ensures !row.TextRow? ==> (LastText(out + [row], p) <==> LastText(out, p))
    ensures row.TextRow? ==> (LastText(out + [row], p) <==> LastText(out, p) && PromptBetween(out, p, |out|))
    ensures row.UserRow? ==> PromptBetween(out + [row], p, |out| + 1)
  {
    var rows := out + [row];
    forall q | p < q <= |out|
      ensures PromptBetween(out, p, q) <==> PromptBetween(rows, p, q)
    {
      PromptPrefix(out, rows, p, q);
    }
    assert forall q :: p < q < |out| ==> rows[q] == out[q];
    assert rows[|out|] == row;
  }

  lemma PushText(out: seq<Row>, row: Row, text: Option<(nat, string)>, model: string)
    requires MetaRight(out, true) && Remembers(out, text) && row.TextRow? && row.meta.None?
    ensures MetaRight(out + [row], true) && Remembers(out + [row], Some((|out|, model)))
  {
    var rows := out + [row];
    forall p | 0 <= p < |out| && out[p].TextRow?
      ensures rows[p].meta.Some? <==> LastText(rows, p) && PromptBetween(rows, p, |rows|)
    {
      PushKeepsLast(out, row, p);
      PromptPrefix(out, rows, p, |out|);
    }
  }

  /** Ending the turn gives its last text the line. */
  lemma EndTurnMeta(b: Build)
    requires MetaRight(b.out, true) && Remembers(b.out, b.turn.text)
    ensures MetaRight(EndTurn(b).out, false)
    ensures forall i :: 0 <= i < |b.out| ==> Bare(EndTurn(b).out[i]) == Bare(b.out[i])
  {
    var out, rows := b.out, EndTurn(b).out;
    forall p, q | 0 <= p < q <= |out|
      ensures PromptBetween(rows, p, q) <==> PromptBetween(out, p, q)
    {
      SamePrompts(out, rows, p, q);
    }
    forall p | 0 <= p < |out| && rows[p].TextRow?
      ensures rows[p].meta.Some? <==> LastText(rows, p)
    {
      assert LastText(rows, p) <==> LastText(out, p);
    }
  }

  lemma SamePrompts(out: seq<Row>, rows: seq<Row>, p: nat, q: nat)
    requires |rows| == |out| && forall i :: 0 <= i < |out| ==> Bare(rows[i]) == Bare(out[i])
    ensures PromptBetween(rows, p, q) <==> PromptBetween(out, p, q)
  {
    forall u | 0 <= u < |out|
      ensures rows[u].UserRow? <==> out[u].UserRow?
    {
      assert Bare(rows[u]) == Bare(out[u]);
    }
  }

  /** The next prompt makes the turn a finished one for good. */
  lemma PushPrompt(out: seq<Row>, row: Row)
    requires MetaRight(out, false) && row.UserRow?
    ensures MetaRight(out + [row], true) && Remembers(out + [row], None)
  {
    forall p | 0 <= p < |out|
      ensures LastText(out + [row], p) <==> LastText(out, p)
      ensures PromptBetween(out + [row], p, |out| + 1)
    {
      PushKeepsLast(out, row, p);
    }
  }

  lemma {:induction false} BuildInv(shown: seq<Shown>)
    requires Plain(shown)
    ensures Inv(PutAll(Empty, shown))
  {
    hide MetaRight, Remembers;
    if shown == [] {
      EmptyInv();
    } else {
      var n := |shown| - 1;
      BuildInv(shown[..n]);
      PutInv(PutAll(Empty, shown[..n]), shown[n]);
    }
  }

  lemma EmptyInv()
    ensures Inv(Empty)
  {
  }

  lemma CloseInv(b: Build)
    requires Inv(b)
    ensures RunsOnly(Close(b).out) && MetaRight(Close(b).out, true) && Remembers(Close(b).out, b.turn.text)
  {
    if b.group != [] {
      PushOther(b.out, Group("group:" + b.group[0].key, b.group), b.turn.text);
    }
  }

  lemma RunsEndTurn(b: Build)
    requires RunsOnly(b.out)
    ensures RunsOnly(EndTurn(b).out)
    ensures b.out != [] ==> (EndTurn(b).out[|b.out| - 1].Group? <==> b.out[|b.out| - 1].Group?)
  {
  }

  lemma PutInv(b: Build, shown: Shown)
    requires Inv(b) && PlainOne(shown)
    ensures Inv(Put(b, shown))
  {
    hide MetaRight, Remembers;
    match shown
    case Prompt(row) =>
      RunsEndTurn(b);
      EndTurnMeta(b);
      EndTurnCloses(b);
      CloseInv(b);
      EndTurnMeta(Close(b));
      RunsEndTurn(Close(b));
      PushPrompt(EndTurn(Close(b)).out, row);
    case Said(key, text, model) =>
      CloseInv(b);
      PushText(Close(b).out, TextRow(key, text, None), b.turn.text, model);
    case Grouped(_) =>
    case Standing(row) =>
      CloseInv(b);
      PushOther(Close(b).out, row, b.turn.text);
    case Finished(_) =>
  }

  /** Ending the turn and closing the group can be done in either order. */
  lemma EndTurnCloses(b: Build)
    ensures b.turn.text.Some? ==> b.turn.text.value.0 < |b.out| ==> Close(EndTurn(b)) == EndTurn(Close(b))
    ensures b.turn.text.None? ==> Close(EndTurn(b)) == EndTurn(Close(b))
  {
  }

  /** In every layout: groups are whole runs, keyed by their first line; a text row
      has its line exactly when it is the last of a turn that is over. */
  lemma RowsLaidOut(messages: seq<Message>, running: bool)
    ensures var rows := Rows(AllShown(messages, |messages|), running);
            RunsOnly(rows) && MetaRight(rows, running)
  {
    hide MetaRight, Remembers;
    var shown := AllShown(messages, |messages|);
    MessagesArePlain(messages, |messages|);
    BuildInv(shown);
    var b := PutAll(Empty, shown);
    CloseInv(b);
    if !running {
      EndTurnMeta(Close(b));
      RunsEndTurn(Close(b));
    }
  }

  // ---- Turns do not touch each other ----

  /** `b` on top of finished rows. */
  function On(done: seq<Row>, b: Build): Build {
    b.(out := done + b.out,
       turn := b.turn.(text := if b.turn.text.None? then None
                               else Some((|done| + b.turn.text.value.0, b.turn.text.value.1))))
  }

  lemma OnEndTurn(done: seq<Row>, b: Build)
    requires b.turn.text.Some? ==> b.turn.text.value.0 < |b.out|
    ensures EndTurn(On(done, b)) == On(done, EndTurn(b))
  {
    if HasOpenText(b) {
      var k := b.turn.text.value.0;
      var row := b.out[k].(meta := Some(Meta(b.turn.text.value.1, Duration(b.turn))));
      assert (done + b.out)[|done| + k] == b.out[k];
      assert (done + b.out)[|done| + k := row] == done + b.out[k := row];
    }
  }

  lemma OnClose(done: seq<Row>, b: Build)
    ensures Close(On(done, b)) == On(done, Close(b))
  {
    if b.group != [] {
      var row := Group("group:" + b.group[0].key, b.group);
      assert (done + b.out) + [row] == done + (b.out + [row]);
    }
  }

  lemma OnPut(done: seq<Row>, b: Build, shown: Shown)
    requires Inv(b)
    ensures Put(On(done, b), shown) == On(done, Put(b, shown))
  {
    hide MetaRight, RunsOnly;
    match shown
    case Prompt(row) =>
      OnEndTurn(done, b);
      var e := EndTurn(b);
      var t := e.(turn := e.turn.(started := Some(if row.UserRow? then row.created else 0)));
      OnClose(done, t);
      assert (done + Close(t).out) + [row] == done + (Close(t).out + [row]);
    case Said(key, text, model) =>
      OnClose(done, b);
      var row := TextRow(key, text, None);
      assert (done + Close(b).out) + [row] == done + (Close(b).out + [row]);
    case Grouped(_) =>
    case Standing(row) =>
      OnClose(done, b);
      assert (done + Close(b).out) + [row] == done + (Close(b).out + [row]);
    case Finished(_) =>
  }

  lemma {:induction false} OnPutAll(done: seq<Row>, xs: seq<Shown>, ys: seq<Shown>)
    requires Plain(xs + ys)
    ensures PutAll(On(done, PutAll(Empty, xs)), ys) == On(done, PutAll(Empty, xs + ys))
    decreases |ys|
  {
    hide Put, Inv, On;
    if ys == [] {
      assert xs + ys == xs;
    } else {
      var n := |ys| - 1;
      assert (xs + ys)[..|xs + ys| - 1] == xs + ys[..n];
      assert (xs + ys)[|xs + ys| - 1] == ys[n];
      OnPutAll(done, xs, ys[..n]);
      BuildInv(xs + ys[..n]);
      OnPut(done, PutAll(Empty, xs + ys[..n]), ys[n]);
    }
  }

  lemma OnFinish(done: seq<Row>, b: Build, running: bool)
    requires Inv(b)
    ensures Finish(On(done, b), running) == done + Finish(b, running)
  {
    hide MetaRight, RunsOnly;
    OnClose(done, b);
    OnEndTurn(done, Close(b));
  }

  /** A prompt ends the turn before it: those rows are laid out once and for all, as
      finished, and the rest as if the messages began at the prompt. */
  lemma TurnsApart(before: seq<Shown>, prompt: Shown, after: seq<Shown>, running: bool)
    requires Plain(before) && Plain([prompt] + after) && prompt.Prompt?
    ensures Rows(before + ([prompt] + after), running) == Rows(before, false) + Rows([prompt] + after, running)
  {
    hide Inv;
    var b, done := PutAll(Empty, before), Rows(before, false);
    PromptStartsOver(before, prompt);
    PutAllSplit(Empty, before, [prompt] + after);
    PutAllSplit(b, [prompt], after);
    OnPutAll(done, [prompt], after);
    BuildInv([prompt] + after);
    OnFinish(done, PutAll(Empty, [prompt] + after), running);
  }

  lemma PutOne(b: Build, shown: Shown)
    ensures PutAll(b, [shown]) == Put(b, shown)
  {
    assert [shown][..0] == [];
  }

  lemma PromptStartsOver(before: seq<Shown>, prompt: Shown)
    requires Plain(before) && prompt.Prompt?
    ensures PutAll(PutAll(Empty, before), [prompt]) == On(Rows(before, false), PutAll(Empty, [prompt]))
  {
    hide MetaRight, RunsOnly;
    var b := PutAll(Empty, before);
    BuildInv(before);
    PutOne(b, prompt);
    PutOne(Empty, prompt);
    EndTurnCloses(b);
    assert [] + [prompt.prompt] == [prompt.prompt];
  }

  /** One turn: only its first thing shown may be a prompt. */
  ghost predicate OneTurn(shown: seq<Shown>) {
    forall i :: 0 < i < |shown| ==> !shown[i].Prompt?
  }

  function Started(shown: seq<Shown>): Option<int> {
    if shown != [] && shown[0].Prompt? then
      Some(if shown[0].prompt.UserRow? then shown[0].prompt.created else 0)
    else None
  }

  function LastModel(shown: seq<Shown>): Option<string> {
    if shown == [] then None
    else
      var last := shown[|shown| - 1];
      if last.Said? then Some(last.model) else LastModel(shown[..|shown| - 1])
  }

  /** The latest time a step finished: none earlier than 0 counts. */
  ghost predicate LastFinish(shown: seq<Shown>, at: Option<int>) {
    && (at.None? <==> forall i :: 0 <= i < |shown| ==> !shown[i].Finished?)
    && (at.Some? ==>
          && at.value >= 0
          && (forall i :: 0 <= i < |shown| && shown[i].Finished? ==> shown[i].at <= at.value)
          && (at.value == 0 || exists i :: 0 <= i < |shown| && shown[i] == Finished(at.value)))
  }

  /** What the build knows of the one turn shown so far. */
  ghost predicate TurnKnown(b: Build, shown: seq<Shown>) {
    && b.turn.started == Started(shown)
    && b.turn.text.Some? == LastModel(shown).Some?
    && (b.turn.text.Some? ==> b.turn.text.value.1 == LastModel(shown).value)
    && LastFinish(shown, b.turn.completed)
    && (forall i :: 0 <= i < |b.out| ==> var row := b.out[i]; row.TextRow? ==> row.meta.None?)
  }

  lemma TurnStep(b: Build, shown: seq<Shown>, more: Shown)
    requires TurnKnown(b, shown) && PlainOne(more) && (more.Prompt? ==> shown == [] && b == Empty)
    requires shown == [] ==> b == Empty
    ensures TurnKnown(Put(b, more), shown + [more])
  {
    hide LastFinish;
    FinishMore(shown, b.turn.completed, more);
    StartedMore(shown, more);
    LastModelMore(shown, more);
    var c := Put(b, more);
    assert c.turn.text.Some? ==> c.turn.text.value.1 == LastModel(shown + [more]).value;
    assert LastFinish(shown + [more], c.turn.completed);
    OutKeepsMeta(b, more);
  }

  lemma StartedMore(shown: seq<Shown>, more: Shown)
    ensures Started(shown + [more]) ==
            if shown != [] then Started(shown)
            else if more.Prompt? then Some(if more.prompt.UserRow? then more.prompt.created else 0) else None
  {
    var all := shown + [more];
    assert all[0] == if shown != [] then shown[0] else more;
  }

  lemma LastModelMore(shown: seq<Shown>, more: Shown)
    ensures LastModel(shown + [more]) == if more.Said? then Some(more.model) else LastModel(shown)
  {
    LastModelOf(shown + [more]);
    assert (shown + [more])[..|shown|] == shown;
  }

  lemma LastModelOf(shown: seq<Shown>)
    requires shown != []
    ensures var n := |shown| - 1; LastModel(shown) == if shown[n].Said? then Some(shown[n].model) else LastModel(shown[..n])
  {
  }

  lemma OutKeepsMeta(b: Build, more: Shown)
    requires PlainOne(more) && (more.Prompt? ==> b == Empty)
    requires forall i :: 0 <= i < |b.out| ==> var row := b.out[i]; row.TextRow? ==> row.meta.None?
    ensures forall i :: 0 <= i < |Put(b, more).out| ==> var row := Put(b, more).out[i]; row.TextRow? ==> row.meta.None?
  {
  }

  lemma {:induction false} TurnState(shown: seq<Shown>)
    requires Plain(shown) && OneTurn(shown)
    ensures TurnKnown(PutAll(Empty, shown), shown)
  {
    if shown != [] {
      hide TurnKnown, Put;
      var n := |shown| - 1;
      TurnState(shown[..n]);
      assert shown[..n] + [shown[n]] == shown;
      if shown[n].Prompt? {
        assert n == 0 && shown[..n] == [];
      }
      TurnStep(PutAll(Empty, shown[..n]), shown[..n], shown[n]);
    } else {
      EmptyKnown();
    }
  }

  lemma EmptyKnown()
    ensures TurnKnown(Empty, [])
  {
  }

  lemma FinishMore(shown: seq<Shown>, at: Option<int>, more: Shown)
    requires LastFinish(shown, at)
    ensures !more.Finished? ==> LastFinish(shown + [more], at)
    ensures more.Finished? ==>
              var before := if at.Some? then at.value else 0;
              LastFinish(shown + [more], Some(if before >= more.at then before else more.at))
  {
    var all := shown + [more];
    assert all[|shown|] == more;
    assert forall i :: 0 <= i < |shown| ==> all[i] == shown[i];
  }

  /** What the line under a finished turn's last text says: the model that wrote the
      text, and the time from the prompt to the last step that finished. */
  lemma LineUnderTurn(shown: seq<Shown>, p: nat)
    requires Plain(shown) && OneTurn(shown) && p < |Rows(shown, false)|
    requires Rows(shown, false)[p].TextRow? && Rows(shown, false)[p].meta.Some?
    ensures LastModel(shown).Some?
    ensures exists at ::
              && LastFinish(shown, at)
              && Rows(shown, false)[p].meta.value
                 == Meta(LastModel(shown).value,
                         if Started(shown).Some? && at.Some? && at.value >= Started(shown).value
                         then Some(at.value - Started(shown).value) else None)
  {
    hide LastFinish, Started, LastModel;
    TurnState(shown);
    var b := PutAll(Empty, shown);
    assert LastFinish(shown, b.turn.completed);
  }

  // ---- The line of a turn, told by its messages ----

  /** The message says something: it has a text part that is not blank. */
  ghost predicate Speaks(m: Message) {
    m.Assistant? && exists j :: 0 <= j < |m.content| && m.content[j].Text? && !Blank(m.content[j].text)
  }

  /** Message `i` is the last of the first `n` that says something. */
  ghost predicate LastSpeaker(messages: seq<Message>, n: nat, i: nat)
    requires n <= |messages|
  {
    i < n && messages[i].Assistant? && Speaks(messages[i]) && forall j :: i < j < n ==> !Speaks(messages[j])
  }

  /** The latest time a step was done, none earlier than 0 counting. */
  ghost predicate DoneAt(messages: seq<Message>, at: Option<int>) {
    && (at.None? <==> forall i :: 0 <= i < |messages| && messages[i].Assistant? ==> messages[i].completed.None?)
    && (at.Some? ==>
          && at.value >= 0
          && (forall i :: 0 <= i < |messages| && messages[i].Assistant? && messages[i].completed.Some? ==>
                messages[i].completed.value <= at.value)
          && (at.value == 0
              || exists i :: 0 <= i < |messages| && messages[i].Assistant? && messages[i].completed == at))
  }

  lemma {:induction false} LastModelAppend(xs: seq<Shown>, ys: seq<Shown>)
    ensures LastModel(xs + ys) == if LastModel(ys).Some? then LastModel(ys) else LastModel(xs)
    decreases |ys|
  {
    if ys == [] {
      assert xs + ys == xs;
    } else {
      LastModelAppend(xs, ys[..|ys| - 1]);
      assert (xs + ys)[..|xs + ys| - 1] == xs + ys[..|ys| - 1];
      assert (xs + ys)[|xs + ys| - 1] == ys[|ys| - 1];
    }
  }

  lemma LastModelOne(shown: seq<Shown>)
    requires |shown| <= 1
    ensures LastModel(shown) == if shown != [] && shown[0].Said? then Some(shown[0].model) else None
  {
    if shown != [] {
      assert shown[..0] == [];
    }
  }

  lemma {:induction false} PartsSay(m: Message, n: nat)
    requires m.Assistant? && n <= |m.content|
    ensures LastModel(PartsShown(m, n))
            == if exists j :: 0 <= j < n && m.content[j].Text? && !Blank(m.content[j].text) then Some(m.model) else None
  {
    hide LastModel, Blank, Digits;
    if n == 0 {
      LastModelOne([]);
    } else {
      PartsSay(m, n - 1);
      LastModelAppend(PartsShown(m, n - 1), PartShown(m.id, m.model, m.content[n - 1], n - 1));
      LastModelOne(PartShown(m.id, m.model, m.content[n - 1], n - 1));
    }
  }

  lemma NothingSaidAfter(m: Message)
    requires m.Assistant?
    ensures LastModel(AfterParts(m)) == None
  {
    hide LastModel;
    var done := if m.completed.None? then [] else [Finished(m.completed.value)];
    var retry, error := NoteOf(m.id + ":retry", m.retry, false), NoteOf(m.id + ":error", m.error, true);
    LastModelAppend(done + retry, error);
    LastModelAppend(done, retry);
    LastModelOne(done);
    LastModelOne(retry);
    LastModelOne(error);
  }

  lemma MessageSays(messages: seq<Message>, i: nat)
    requires i < |messages|
    ensures LastModel(MessageShown(messages, i)) == if Speaks(messages[i]) then Some(messages[i].model) else None
  {
    hide LastModel, PartsShown, AfterParts;
    var m := messages[i];
    if m.Assistant? {
      PartsSay(m, |m.content|);
      NothingSaidAfter(m);
      LastModelAppend(PartsShown(m, |m.content|), AfterParts(m));
    } else {
      LastModelOne(MessageShown(messages, i));
    }
  }

  lemma {:induction false} LastSaid(messages: seq<Message>, n: nat)
    requires n <= |messages|
    ensures LastModel(AllShown(messages, n)).Some? ==>
              exists i: nat :: LastSpeaker(messages, n, i) && LastModel(AllShown(messages, n)).value == messages[i].model
    ensures LastModel(AllShown(messages, n)).None? ==> forall i :: 0 <= i < n ==> !Speaks(messages[i])
  {
    hide LastModel, MessageShown, Speaks;
    if n == 0 {
      LastModelOne([]);
    } else {
      LastSaid(messages, n - 1);
      MessageSays(messages, n - 1);
      LastModelAppend(AllShown(messages, n - 1), MessageShown(messages, n - 1));
      if Speaks(messages[n - 1]) {
        SpeakerIsAssistant(messages[n - 1]);
        assert LastSpeaker(messages, n, n - 1);
      } else if LastModel(AllShown(messages, n)).Some? {
        var i: nat :| LastSpeaker(messages, n - 1, i) && LastModel(AllShown(messages, n)).value == messages[i].model;
        assert LastSpeaker(messages, n, i);
      }
    }
  }

  lemma SpeakerIsAssistant(m: Message)
    requires Speaks(m)
    ensures m.Assistant?
  {
  }

  lemma PartFinishesNothing(m: Message, n: nat, t: int)
    requires m.Assistant? && n <= |m.content|
    ensures Finished(t) !in PartsShown(m, n)
  {
  }

  lemma MessageFinishes(messages: seq<Message>, i: nat, t: int)
    requires i < |messages|
    ensures Finished(t) in MessageShown(messages, i) <==> messages[i].Assistant? && messages[i].completed == Some(t)
  {
    if messages[i].Assistant? {
      hide PartsShown;
      PartFinishesNothing(messages[i], |messages[i].content|, t);
    }
  }

  lemma {:induction false} FinishesAre(messages: seq<Message>, n: nat, t: int)
    requires n <= |messages|
    ensures Finished(t) in AllShown(messages, n) <==>
              exists i :: 0 <= i < n && messages[i].Assistant? && messages[i].completed == Some(t)
  {
    hide MessageShown;
    if n > 0 {
      FinishesAre(messages, n - 1, t);
      MessageFinishes(messages, n - 1, t);
    }
  }

  lemma FinishIsDone(messages: seq<Message>, at: Option<int>)
    requires LastFinish(AllShown(messages, |messages|), at)
    ensures DoneAt(messages, at)
  {
    hide AllShown;
    var shown := AllShown(messages, |messages|);
    forall t
      ensures Finished(t) in shown <==>
                exists i :: 0 <= i < |messages| && messages[i].Assistant? && messages[i].completed == Some(t)
    {
      FinishesAre(messages, |messages|, t);
    }
    forall i | 0 <= i < |messages| && messages[i].Assistant? && messages[i].completed.Some?
      ensures at.Some? && messages[i].completed.value <= at.value
      ensures exists k :: 0 <= k < |shown| && shown[k].Finished?
    {
      assert Finished(messages[i].completed.value) in shown;
    }
    if k :| 0 <= k < |shown| && shown[k].Finished? {
      assert Finished(shown[k].at) in shown;
    }
    if at.Some? && at.value != 0 {
      var k :| 0 <= k < |shown| && shown[k] == Finished(at.value);
      assert Finished(at.value) in shown;
    }
  }

  /** Only the first message may be a prompt. */
  ghost predicate OneTurnOf(messages: seq<Message>) { forall i :: 0 < i < |messages| ==> !messages[i].User? }

  lemma {:induction false} OneTurnShown(messages: seq<Message>, n: nat)
    requires OneTurnOf(messages) && n <= |messages|
    ensures OneTurn(AllShown(messages, n))
    ensures Started(AllShown(messages, n)) == if n > 0 && messages[0].User? then Some(messages[0].created) else None
    ensures AllShown(messages, n) != [] && AllShown(messages, n)[0].Prompt? ==> messages[0].User?
    ensures n > 0 && messages[0].User? ==> AllShown(messages, n) != []
  {
    hide MessageShown;
    if n > 0 {
      OneTurnShown(messages, n - 1);
      MessagePrompts(messages, n - 1);
      if n == 1 {
        assert AllShown(messages, 0) == [];
        assert AllShown(messages, 1) == MessageShown(messages, 0);
      }
    }
  }

  lemma MessagePrompts(messages: seq<Message>, i: nat)
    requires i < |messages|
    ensures var shown, m := MessageShown(messages, i), messages[i];
            if m.User? then shown == [Prompt(UserRow(m.id, m.text, m.created))]
            else forall k :: 0 <= k < |shown| ==> !shown[k].Prompt?
  {
    if messages[i].Assistant? {
      hide PartsShown;
      PartsPrompt(messages[i], |messages[i].content|);
    }
  }

  lemma {:induction false} PartsPrompt(m: Message, n: nat)
    requires m.Assistant? && n <= |m.content|
    ensures forall k :: 0 <= k < |PartsShown(m, n)| ==> !PartsShown(m, n)[k].Prompt?
  {
    if n > 0 {
      PartsPrompt(m, n - 1);
    }
  }

  /** The line under a turn names the model of the last message that says something, and
      the time from the prompt to the latest step done, when both are known and in order. */
  lemma LineOfTurn(messages: seq<Message>, p: nat)
    requires OneTurnOf(messages)
    requires var rows := Rows(AllShown(messages, |messages|), false);
             p < |rows| && rows[p].TextRow? && rows[p].meta.Some?
    ensures exists i: nat, at ::
              && LastSpeaker(messages, |messages|, i) && DoneAt(messages, at)
              && Rows(AllShown(messages, |messages|), false)[p].meta.value
                 == Meta(messages[i].model,
                         if messages[0].User? && at.Some? && at.value >= messages[0].created
                         then Some(at.value - messages[0].created) else None)
  {
    hide AllShown, Rows, LastFinish, DoneAt, LastModel, Started;
    var shown := AllShown(messages, |messages|);
    MessagesArePlain(messages, |messages|);
    OneTurnShown(messages, |messages|);
    LineUnderTurn(shown, p);
    LastSaid(messages, |messages|);
    var i: nat :| LastSpeaker(messages, |messages|, i) && LastModel(shown).value == messages[i].model;
    var at :| LastFinish(shown, at)
              && Rows(shown, false)[p].meta.value
                 == Meta(LastModel(shown).value,
                         if Started(shown).Some? && at.Some? && at.value >= Started(shown).value
                         then Some(at.value - Started(shown).value) else None);
    FinishIsDone(messages, at);
  }

  lemma {:induction false} CutShown(a: seq<Message>, b: seq<Message>, n: nat)
    requires b != [] && b[0].User? && n <= |b|
    ensures AllShown(a + b, |a| + n) == AllShown(a, |a|) + AllShown(b, n)
    decreases n
  {
    hide MessageShown;
    if n == 0 {
      SameShown(a, b, |a|);
      assert AllShown(a, |a|) + [] == AllShown(a, |a|);
    } else {
      CutShown(a, b, n - 1);
      CutMessage(a, b, n - 1);
    }
  }

  lemma {:induction false} SameShown(a: seq<Message>, b: seq<Message>, n: nat)
    requires n <= |a|
    ensures AllShown(a + b, n) == AllShown(a, n)
  {
    hide MessageShown;
    if n > 0 {
      SameShown(a, b, n - 1);
      SameMessage(a, b, n - 1);
    }
  }

  lemma SameMessage(a: seq<Message>, b: seq<Message>, i: nat)
    requires i < |a|
    ensures MessageShown(a + b, i) == MessageShown(a, i)
  {
    hide PartsShown, AfterParts;
  }

  lemma CutMessage(a: seq<Message>, b: seq<Message>, i: nat)
    requires i < |b| && b[0].User?
    ensures MessageShown(a + b, |a| + i) == MessageShown(b, i)
  {
    hide PartsShown, AfterParts;
    assert (a + b)[|a| + i] == b[i];
    assert i > 0 ==> (a + b)[|a| + i - 1] == b[i - 1];
  }

  /** A prompt ends the turn before it: its rows are those of a session that ended there,
      and the rest those of one that began with the prompt. */
  lemma PromptCutsMessages(a: seq<Message>, b: seq<Message>, running: bool)
    requires b != [] && b[0].User?
    ensures Rows(AllShown(a + b, |a + b|), running)
            == Rows(AllShown(a, |a|), false) + Rows(AllShown(b, |b|), running)
  {
    hide Rows, MessageShown;
    CutShown(a, b, |b|);
    FirstShown(b, |b|);
    var before, after := AllShown(a, |a|), AllShown(b, |b|);
    MessagesArePlain(a, |a|);
    MessagesArePlain(b, |b|);
    MessagePrompts(b, 0);
    assert after == [after[0]] + after[1..];
    TurnsApart(before, after[0], after[1..], running);
  }

  lemma {:induction false} FirstShown(b: seq<Message>, n: nat)
    requires 1 <= n <= |b| && b[0].User?
    ensures AllShown(b, n) != [] && AllShown(b, n)[0].Prompt?
  {
    hide MessageShown;
    if n == 1 {
      MessagePrompts(b, 0);
      assert AllShown(b, 0) == [];
    } else {
      FirstShown(b, n - 1);
    }
  }
}
