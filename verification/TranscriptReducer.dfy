/**
 The live transcript (`packages/oc-client/src/transcript-reducer.ts`): session
 events folded into projection rows, and pages of the projection merged in.

 `Blob` stands for payloads that are only carried along.
 */
module TranscriptReducer {
  import opened Wrappers

  type Blob = string
  type Native = map<string, Blob>

  datatype ToolState =
    | Streaming(text: string)
    | Running(input: Blob, metadata: Option<Blob>)
    | Completed(input: Blob, metadata: Option<Blob>, content: Blob)
    | Errored(input: Blob, error: Blob, metadata: Option<Blob>, partial: Option<Blob>)

  datatype Content =
    | Text(text: string)
    | Reasoning(text: string, native: Option<Native>, created: Option<int>, completed: Option<int>)
    | Tool(id: string, name: string, native: Option<Native>, executed: Option<bool>,
           started: int, ran: Option<int>, completed: Option<int>, state: ToolState)

  datatype Snapshot = Snapshot(start: Option<Blob>, end: Option<Blob>)

  datatype Head = Head(
    agent: Blob, model: Blob, metadata: Option<Blob>, snapshot: Option<Snapshot>,
    retry: Option<Blob>, error: Option<Blob>, finish: Option<Blob>, rawFinish: Option<Blob>,
    native: Option<Blob>, cost: Option<Blob>, tokens: Option<Blob>,
    created: int, streamed: Option<int>, completed: Option<int>)

  datatype Kind = User | Synthetic

  datatype Row =
    | Assistant(id: string, head: Head, content: seq<Content>)
    | Input(id: string, kind: Kind, text: string, extra: Blob, created: int)
    | Other(id: string, info: Blob, created: int)

  type Rows = seq<Row>

  /** What one event does to an assistant message. */
  datatype Edit =
    | Streamed
    | StepEnded(finish: Option<Blob>, rawFinish: Option<Blob>, native: Option<Blob>, cost: Option<Blob>,
                tokens: Option<Blob>, snapshot: Option<Blob>)
    | StepFailed(finish: Option<Blob>, rawFinish: Option<Blob>, native: Option<Blob>, error: Blob,
                 usage: Option<(Blob, Blob)>)
    | Retried(retry: Blob)
    | TextStarted
    | TextDelta(delta: string)
    | TextEnded(text: string)
    | ReasoningStarted(reasoning: Option<Native>)
    | ReasoningDelta(delta: string)
    | ReasoningEnded(text: string, reasoning: Option<Native>)
    | ToolStarted(tool: string, name: string)
    | ToolDelta(tool: string, delta: string)
    | ToolInputEnded(tool: string, text: string)
    | ToolCalled(tool: string, executed: bool, more: Option<Native>, input: Blob)
    | ToolProgress(tool: string, metadata: Blob)
    | ToolSucceeded(tool: string, executed: bool, more: Option<Native>, meta: Option<Blob>, result: Blob)
    | ToolFailed(tool: string, executed: bool, more: Option<Native>, meta: Option<Blob>, failure: Blob,
                 partial: Option<Blob>)

  datatype Item = UserItem(text: string, extra: Blob) | SyntheticItem(text: string, extra: Blob) | OtherItem

  datatype Event =
    | Enqueued(inbox: string, item: Item, at: int)
    | Delivered(inbox: string, at: int)
    | Cancelled(inbox: string)
    | Synthesized(event: string, text: string, extra: Blob, at: int)
    | Instructions(event: string, words: Option<string>, at: int)
    | StepStarted(message: string, agent: Blob, model: Blob, metadata: Option<Blob>, snapshot: Option<Blob>,
                  started: int, at: int)
    | Edited(message: string, edit: Edit, at: int)
    | Ignored

  /** `evt_*` to `msg_*`. */
  function MessageId(event: string): string {
    if "evt_" <= event then "msg_" + event[4..] else event
  }

  // ---- Finding and replacing ----

  /** The last row with this id, or -1. */
  function IndexOf(rows: Rows, id: string): (r: int)
    ensures -1 <= r < |rows|
    ensures r >= 0 ==> rows[r].id == id && forall i :: r < i < |rows| ==> rows[i].id != id
    ensures r < 0 ==> forall i :: 0 <= i < |rows| ==> rows[i].id != id
  {
    if rows == [] then -1
    else if rows[|rows| - 1].id == id then |rows| - 1
    else IndexOf(rows[..|rows| - 1], id)
  }

  method FindLast(rows: Rows, id: string) returns (r: int)
    ensures r == IndexOf(rows, id)
  {
    for i := |rows| downto 0
      invariant IndexOf(rows, id) == IndexOf(rows[..i], id)
    {
      if rows[i].id == id {
        return i;
      }
      assert rows[..i + 1][..i] == rows[..i];
    }
    return -1;
  }

  function Append(rows: Rows, row: Row): Rows {
    if IndexOf(rows, row.id) >= 0 then rows else rows + [row]
  }

  function Upsert(rows: Rows, row: Row): Rows {
    var i := IndexOf(rows, row.id);
    if i < 0 then rows + [row] else rows[i := row]
  }

  function EditAssistant(rows: Rows, id: string, f: Row -> Row): Rows {
    var i := IndexOf(rows, id);
    if i >= 0 && rows[i].Assistant? then rows[i := f(rows[i])] else rows
  }

  /** JavaScript's `!time.completed`: missing, or zero. */
  predicate Unset(time: Option<int>) { time.None? || time.value == 0 }

  predicate Open(row: Row) { row.Assistant? && Unset(row.head.completed) }

  /** A part of a message that streams. */
  datatype Part = TextPart | ReasoningPart | ToolPart(id: string)

  predicate Picks(part: Part, c: Content) {
    match part
    case TextPart => c.Text?
    case ReasoningPart => c.Reasoning? && Unset(c.completed)
    case ToolPart(id) => c.Tool? && c.id == id
  }

  /** The last content item picked is replaced. */
  function EditLast(content: seq<Content>, part: Part, f: Content -> Content): (r: seq<Content>)
    ensures |r| == |content|
  {
    if content == [] then []
    else
      var n := |content| - 1;
      if Picks(part, content[n]) then content[..n] + [f(content[n])]
      else EditLast(content[..n], part, f) + [content[n]]
  }

  /** What the items from `i` on do not change, the rest decides. */
  lemma EditLastSkip(content: seq<Content>, part: Part, f: Content -> Content, i: nat)
    requires i < |content|
    ensures content[..i + 1][..i] == content[..i] && content[i..] == [content[i]] + content[i + 1..]
    ensures !Picks(part, content[i]) ==>
              EditLast(content[..i + 1], part, f) + content[i + 1..] == EditLast(content[..i], part, f) + content[i..]
    ensures Picks(part, content[i]) ==>
              EditLast(content[..i + 1], part, f) + content[i + 1..] == content[i := f(content[i])]
  {
    hide Picks;
    var c := content[..i + 1];
    assert c[..i] == content[..i] && c[i] == content[i];
    assert content[i := f(content[i])] == content[..i] + [f(content[i])] + content[i + 1..];
  }

  /** `editLastContent` */
  method EditLastContent(content: seq<Content>, part: Part, f: Content -> Content) returns (r: seq<Content>)
    ensures r == EditLast(content, part, f)
  {
    hide EditLast, Picks;
    assert content[..|content|] == content && content[|content|..] == [];
    for i := |content| downto 0
      invariant EditLast(content, part, f) == EditLast(content[..i], part, f) + content[i..]
    {
      EditLastSkip(content, part, f, i);
      if Picks(part, content[i]) {
        return content[i := f(content[i])];
      }
    }
    assert content[..0] == [] && content[0..] == content;
    return content;
  }

  // ---- One event ----

  function AddNative(was: Option<Native>, more: Option<Native>): Option<Native> {
    if more.None? then was else Some((if was.Some? then was.value else map[]) + more.value)
  }

  function SetNative(was: Option<Native>, more: Option<Native>): Option<Native> {
    if more.None? then was else more
  }

  /** The change to the picked item, when the edit is to one. */
  function Change(edit: Edit, at: int): Content -> Content {
    (c: Content) =>
      match edit
      case TextDelta(delta) => if c.Text? then Text(c.text + delta) else c
      case TextEnded(text) => if c.Text? then Text(text) else c
      case ReasoningDelta(delta) => if c.Reasoning? then c.(text := c.text + delta) else c
      case ReasoningEnded(text, native) =>
        if c.Reasoning? then
          Reasoning(text, SetNative(c.native, native), Some(if c.created.Some? then c.created.value else at), Some(at))
        else c
      case ToolDelta(_, delta) =>
        if c.Tool? && c.state.Streaming? then c.(state := Streaming(c.state.text + delta)) else c
      case ToolInputEnded(_, text) => if c.Tool? && c.state.Streaming? then c.(state := Streaming(text)) else c
      case ToolCalled(_, executed, native, input) =>
        if c.Tool? then
          c.(ran := Some(at), executed := Some(executed), native := SetNative(c.native, native),
             state := Running(input, Some("{}")))
        else c
      case ToolProgress(_, metadata) =>
        if c.Tool? && c.state.Running? then c.(state := Running(c.state.input, Some(metadata))) else c
      case ToolSucceeded(_, executed, native, metadata, result) =>
        if c.Tool? && c.state.Running? then
          c.(state := Completed(c.state.input, metadata, result),
             executed := Some(executed || c.executed == Some(true)),
             native := AddNative(c.native, native), completed := Some(at))
        else c
      case ToolFailed(_, executed, native, metadata, failure, partial) =>
        if c.Tool? && (c.state.Streaming? || c.state.Running?) then
          c.(state := Errored(if c.state.Streaming? then "{}" else c.state.input, failure, metadata, partial),
             executed := Some(executed || c.executed == Some(true)),
             native := AddNative(c.native, native), completed := Some(at))
        else c
      case _ => c
  }

  /** Which part an edit changes, when it changes one that is there. */
  function PartOf(edit: Edit): Option<Part> {
    match edit
    case TextDelta(_) => Some(TextPart)
    case TextEnded(_) => Some(TextPart)
    case ReasoningDelta(_) => Some(ReasoningPart)
    case ReasoningEnded(_, _) => Some(ReasoningPart)
    case ToolDelta(id, _) => Some(ToolPart(id))
    case ToolInputEnded(id, _) => Some(ToolPart(id))
    case ToolCalled(id, _, _, _) => Some(ToolPart(id))
    case ToolProgress(id, _) => Some(ToolPart(id))
    case ToolSucceeded(id, _, _, _, _) => Some(ToolPart(id))
    case ToolFailed(id, _, _, _, _, _) => Some(ToolPart(id))
    case _ => None
  }

  /** The content an edit adds at the end, when it starts a part. */
  function NewPart(edit: Edit, at: int): seq<Content> {
    match edit
    case TextStarted => [Text("")]
    case ReasoningStarted(native) => [Reasoning("", native, Some(at), None)]
    case ToolStarted(id, name) => [Tool(id, name, None, None, at, None, None, Streaming(""))]
    case _ => []
  }

  function EditHead(h: Head, edit: Edit, at: int): Head {
    match edit
    case Streamed => h.(streamed := Some(at))
    case StepEnded(finish, rawFinish, native, cost, tokens, snapshot) =>
      h.(completed := Some(at), finish := finish, rawFinish := rawFinish, native := native, cost := cost,
         tokens := tokens,
         snapshot := if snapshot.None? then h.snapshot
                     else Some(Snapshot(if h.snapshot.Some? then h.snapshot.value.start else None, snapshot)))
    case StepFailed(finish, rawFinish, native, error, usage) =>
      h.(completed := Some(at), finish := Some(if finish.Some? then finish.value else "error"),
         rawFinish := rawFinish, native := native, error := Some(error), retry := None,
         cost := if usage.Some? then Some(usage.value.0) else h.cost,
         tokens := if usage.Some? then Some(usage.value.1) else h.tokens)
    case Retried(retry) => h.(retry := Some(retry))
    case _ => h
  }

  function EditContent(content: seq<Content>, edit: Edit, at: int): seq<Content> {
    if PartOf(edit).Some? then EditLast(content, PartOf(edit).value, Change(edit, at))
    else content + NewPart(edit, at)
  }

  function EditRow(edit: Edit, at: int): Row -> Row {
    (row: Row) =>
      if row.Assistant? then Assistant(row.id, EditHead(row.head, edit, at), EditContent(row.content, edit, at)) else row
  }

  /** The last assistant row still open, or -1. */
  function ActiveIndex(rows: Rows): (r: int)
    ensures -1 <= r < |rows|
    ensures r >= 0 ==> Open(rows[r]) && forall i :: r < i < |rows| ==> !Open(rows[i])
    ensures r < 0 ==> forall i :: 0 <= i < |rows| ==> !Open(rows[i])
  {
    if rows == [] then -1
    else if Open(rows[|rows| - 1]) then |rows| - 1
    else ActiveIndex(rows[..|rows| - 1])
  }

  /** The open assistant row, if any, closed now. */
  function CloseActive(rows: Rows, at: int): Rows {
    var i := ActiveIndex(rows);
    if i < 0 then rows else rows[i := Shut(rows[i], at)]
  }

  function Shut(row: Row, at: int): Row {
    if row.Assistant? then row.(head := row.head.(retry := None, completed := Some(at))) else row
  }

  /** A retried step reopens its message. */
  function Reopen(row: Row, e: Event): Row
    requires e.StepStarted?
  {
    if row.Assistant? then
      row.(head := row.head.(
             agent := e.agent, model := e.model, retry := None, error := None, finish := None, rawFinish := None,
             native := None, created := e.started, streamed := None, completed := None,
             snapshot := if e.snapshot.None? then row.head.snapshot
                         else Some(Snapshot(e.snapshot, if row.head.snapshot.Some? then row.head.snapshot.value.end else None))))
    else row
  }

  function NewStep(e: Event): Row
    requires e.StepStarted?
  {
    Assistant(e.message,
              Head(e.agent, e.model, e.metadata,
                   if e.snapshot.None? then None else Some(Snapshot(e.snapshot, None)),
                   None, None, None, None, None, None, None, e.started, None, None),
              [])
  }

  predicate Reopens(rows: Rows, e: Event)
    requires e.StepStarted?
  {
    IndexOf(rows, e.message) >= 0 && rows[IndexOf(rows, e.message)].Assistant?
  }

  function StepStart(rows: Rows, e: Event): Rows
    requires e.StepStarted?
  {
    if Reopens(rows, e) then rows[IndexOf(rows, e.message) := Reopen(rows[IndexOf(rows, e.message)], e)]
    else Append(CloseActive(rows, e.at), NewStep(e))
  }

  function Remove(rows: Rows, i: nat): Rows
    requires i < |rows|
  {
    rows[..i] + rows[i + 1..]
  }

  function Dated(row: Row, at: int): Row {
    if row.Input? then Input(row.id, row.kind, row.text, row.extra, at) else row
  }

  function Deliver(rows: Rows, inbox: string, at: int): Rows {
    var i := IndexOf(rows, inbox);
    if i < 0 || !rows[i].Input? then rows else Remove(rows, i) + [Dated(rows[i], at)]
  }

  function Cancel(rows: Rows, inbox: string): Rows {
    var i := IndexOf(rows, inbox);
    if i < 0 then rows else Remove(rows, i)
  }

  /** `applyTranscriptEvent` */
  function Apply(rows: Rows, e: Event): Rows {
    match e
    case Enqueued(inbox, item, at) =>
      (match item
       case UserItem(text, extra) => Upsert(rows, Input(inbox, User, text, extra, at))
       case SyntheticItem(text, extra) => Upsert(rows, Input(inbox, Synthetic, text, extra, at))
       case OtherItem => rows)
    case Delivered(inbox, at) => Deliver(rows, inbox, at)
    case Cancelled(inbox) => Cancel(rows, inbox)
    case Synthesized(event, text, extra, at) => Append(rows, Input(MessageId(event), Synthetic, text, extra, at))
    case Instructions(event, text, at) =>
      if text.None? then rows else Append(rows, Other(MessageId(event), text.value, at))
    case StepStarted(_, _, _, _, _, _, _) => StepStart(rows, e)
    case Edited(message, edit, at) => EditAssistant(rows, message, EditRow(edit, at))
    case Ignored => rows
  }

  function Fold(rows: Rows, es: seq<Event>): Rows {
    if es == [] then rows else Apply(Fold(rows, es[..|es| - 1]), es[|es| - 1])
  }

  // ---- Editing a part, at every level ----

  /** `f` keeps the item where it is: what picked it picks it still, and nothing else. */
  ghost predicate Steady(f: Content -> Content) {
    forall part, c :: Picks(part, f(c)) <==> Picks(part, c)
  }

  lemma {:induction false} EditLastTwice(content: seq<Content>, part: Part, f: Content -> Content,
                                         g: Content -> Content, h: Content -> Content)
    requires Steady(f) && forall c :: Picks(part, c) ==> g(f(c)) == h(c)
    ensures EditLast(EditLast(content, part, f), part, g) == EditLast(content, part, h)
  {
    if content != [] {
      var n := |content| - 1;
      var once := EditLast(content, part, f);
      if Picks(part, content[n]) {
        assert once[..n] == content[..n] && once[n] == f(content[n]);
      } else {
        assert once[..n] == EditLast(content[..n], part, f) && once[n] == content[n];
        EditLastTwice(content[..n], part, f, g, h);
      }
    }
  }

  /** Edits to different parts do not see each other. */
  lemma {:induction false} EditLastApart(content: seq<Content>, p: Part, f: Content -> Content,
                                         q: Part, g: Content -> Content)
    requires Steady(f)
    requires forall c :: !(Picks(p, c) && Picks(q, c))
    requires forall c :: Picks(q, c) ==> !Picks(p, g(c))
    ensures EditLast(EditLast(content, p, f), q, g) == EditLast(EditLast(content, q, g), p, f)
  {
    if content != [] {
      var n := |content| - 1;
      var x, y := EditLast(content, p, f), EditLast(content, q, g);
      EditLastApart(content[..n], p, f, q, g);
      if Picks(p, content[n]) {
        assert x[..n] == content[..n] && x[n] == f(content[n]);
        assert y[..n] == EditLast(content[..n], q, g) && y[n] == content[n];
      } else if Picks(q, content[n]) {
        assert x[..n] == EditLast(content[..n], p, f) && x[n] == content[n];
        assert y[..n] == content[..n] && y[n] == g(content[n]);
      } else {
        assert x[..n] == EditLast(content[..n], p, f) && x[n] == content[n];
        assert y[..n] == EditLast(content[..n], q, g) && y[n] == content[n];
      }
    }
  }

  lemma {:induction false} EditLastSame(content: seq<Content>, part: Part, f: Content -> Content, g: Content -> Content)
    requires forall c :: Picks(part, c) ==> f(c) == g(c)
    ensures EditLast(content, part, f) == EditLast(content, part, g)
  {
    if content != [] {
      EditLastSame(content[..|content| - 1], part, f, g);
    }
  }

  /** The change of one part, as a change of the message. */
  function OnRow(part: Part, f: Content -> Content): Row -> Row {
    (row: Row) => if row.Assistant? then row.(content := EditLast(row.content, part, f)) else row
  }

  /** The change of one part of message `m`. */
  function OnPart(rows: Rows, m: string, part: Part, f: Content -> Content): Rows {
    EditAssistant(rows, m, OnRow(part, f))
  }

  ghost predicate KeepsId(f: Row -> Row) {
    forall row :: f(row).id == row.id && f(row).Assistant? == row.Assistant?
  }

  lemma SameIds(a: Rows, b: Rows, id: string)
    requires |a| == |b| && forall i :: 0 <= i < |a| ==> a[i].id == b[i].id
    ensures IndexOf(a, id) == IndexOf(b, id)
  {
  }

  lemma EditKeepsIds(rows: Rows, m: string, f: Row -> Row, id: string)
    requires KeepsId(f)
    ensures IndexOf(EditAssistant(rows, m, f), id) == IndexOf(rows, id)
    ensures |EditAssistant(rows, m, f)| == |rows|
  {
    SameIds(rows, EditAssistant(rows, m, f), id);
  }

  lemma EditEdit(rows: Rows, m: string, f: Row -> Row, g: Row -> Row, h: Row -> Row)
    requires KeepsId(f) && forall row: Row :: row.Assistant? && row.id == m ==> g(f(row)) == h(row)
    ensures EditAssistant(EditAssistant(rows, m, f), m, g) == EditAssistant(rows, m, h)
  {
    EditKeepsIds(rows, m, f, m);
  }

  lemma EditApart(rows: Rows, m: string, f: Row -> Row, n: string, g: Row -> Row)
    requires KeepsId(f) && KeepsId(g) && m != n
    ensures EditAssistant(EditAssistant(rows, m, f), n, g) == EditAssistant(EditAssistant(rows, n, g), m, f)
  {
    hide IndexOf, ActiveIndex;
    EditKeepsIds(rows, m, f, n);
    EditKeepsIds(rows, n, g, m);
  }

  // ---- Deltas of one part against all other events ----

  /** What a delta does to its part. */
  function Grow(delta: string): Content -> Content {
    (c: Content) =>
      match c
      case Text(text) => Text(text + delta)
      case Reasoning(text, _, _, _) => c.(text := text + delta)
      case Tool(_, _, _, _, _, _, _, state) =>
        if state.Streaming? then c.(state := Streaming(state.text + delta)) else c
  }

  /** The delta event of a part. */
  function Delta(m: string, part: Part, delta: string): Event {
    Edited(m,
           match part
           case TextPart => TextDelta(delta)
           case ReasoningPart => ReasoningDelta(delta)
           case ToolPart(id) => ToolDelta(id, delta),
           0)
  }

  predicate IsDelta(m: string, part: Part, e: Event) {
    e.Edited? && e.message == m
    && match part
       case TextPart => e.edit.TextDelta?
       case ReasoningPart => e.edit.ReasoningDelta?
       case ToolPart(id) => e.edit.ToolDelta? && e.edit.tool == id
  }

  /** It starts a part that would be the part's successor as the streaming target. */
  predicate Starts(m: string, part: Part, e: Event) {
    e.Edited? && e.message == m
    && match part
       case TextPart => e.edit.TextStarted?
       case ReasoningPart => e.edit.ReasoningStarted?
       case ToolPart(id) => e.edit.ToolStarted? && e.edit.tool == id
  }

  /** It is about the part itself, or takes its whole row away. */
  predicate Concerns(m: string, part: Part, e: Event) {
    || Starts(m, part, e)
    || (e.Edited? && e.message == m && PartOf(e.edit) == Some(part))
    || e == Cancelled(m)
  }

  lemma DeltaIsGrow(rows: Rows, m: string, part: Part, e: Event)
    requires IsDelta(m, part, e)
    ensures Apply(rows, e) == OnPart(rows, m, part, Grow(e.edit.delta))
  {
    var i := IndexOf(rows, m);
    if i >= 0 && rows[i].Assistant? {
      EditLastSame(rows[i].content, part, Change(e.edit, e.at), Grow(e.edit.delta));
    }
  }

  lemma SteadyGrow(delta: string)
    ensures Steady(Grow(delta))
  {
  }

  lemma OnRowKeepsId(part: Part, f: Content -> Content)
    ensures KeepsId(OnRow(part, f))
  {
  }

  /** Two changes of one part in a row are one. */
  lemma PartPart(rows: Rows, m: string, part: Part, f: Content -> Content, g: Content -> Content, h: Content -> Content)
    requires Steady(f) && forall c :: Picks(part, c) ==> g(f(c)) == h(c)
    ensures OnPart(OnPart(rows, m, part, f), m, part, g) == OnPart(rows, m, part, h)
  {
    forall row: Row | row.Assistant?
      ensures OnRow(part, g)(OnRow(part, f)(row)) == OnRow(part, h)(row)
    {
      EditLastTwice(row.content, part, f, g, h);
    }
    OnRowKeepsId(part, f);
    EditEdit(rows, m, OnRow(part, f), OnRow(part, g), OnRow(part, h));
  }

  lemma GrowGrow(rows: Rows, m: string, part: Part, a: string, b: string)
    ensures OnPart(OnPart(rows, m, part, Grow(a)), m, part, Grow(b)) == OnPart(rows, m, part, Grow(a + b))
  {
    SteadyGrow(a);
    forall c
      ensures Grow(b)(Grow(a)(c)) == Grow(a + b)(c)
    {
      GrowTwice(c, a, b);
    }
    PartPart(rows, m, part, Grow(a), Grow(b), Grow(a + b));
  }

  lemma GrowTwice(c: Content, a: string, b: string)
    ensures Grow(b)(Grow(a)(c)) == Grow(a + b)(c)
  {
    match c
    case Text(text) => assert text + a + b == text + (a + b);
    case Reasoning(text, _, _, _) => assert text + a + b == text + (a + b);
    case Tool(_, _, _, _, _, _, _, state) =>
      if state.Streaming? {
        assert state.text + a + b == state.text + (a + b);
      }
  }

  lemma GrowNothing(rows: Rows, m: string, part: Part)
    ensures OnPart(rows, m, part, Grow("")) == rows
  {
    var i := IndexOf(rows, m);
    if i >= 0 && rows[i].Assistant? {
      EditLastId(rows[i].content, part, Grow(""));
    }
  }

  lemma {:induction false} EditLastId(content: seq<Content>, part: Part, f: Content -> Content)
    requires forall c :: f(c) == c
    ensures EditLast(content, part, f) == content
  {
    if content != [] {
      EditLastId(content[..|content| - 1], part, f);
    }
  }

  /** An edit of the same message that is not about the part goes past its change. */
  lemma EditRowApart(part: Part, f: Content -> Content, edit: Edit, at: int, row: Row)
    requires Steady(f) && row.Assistant?
    requires PartOf(edit) != Some(part)
    requires NewPart(edit, at) == [] || (|NewPart(edit, at)| == 1 && !Picks(part, NewPart(edit, at)[0]))
    ensures EditRow(edit, at)(OnRow(part, f)(row)) == OnRow(part, f)(EditRow(edit, at)(row))
  {
    hide Change, NewPart, PartOf, Picks, EditHead;
    if PartOf(edit).Some? {
      var q := PartOf(edit).value;
      ChangeStaysApart(part, edit, at);
      EditLastApart(row.content, part, f, q, Change(edit, at));
    } else if NewPart(edit, at) == [] {
      assert row.content + [] == row.content;
      assert EditLast(row.content, part, f) + [] == EditLast(row.content, part, f);
    } else {
      var c := NewPart(edit, at)[0];
      assert NewPart(edit, at) == [c];
      assert (row.content + [c])[..|row.content|] == row.content;
    }
  }

  lemma ChangeStaysApart(part: Part, edit: Edit, at: int)
    requires PartOf(edit).Some? && PartOf(edit) != Some(part)
    ensures forall c :: !(Picks(part, c) && Picks(PartOf(edit).value, c))
    ensures forall c :: Picks(PartOf(edit).value, c) ==> !Picks(part, Change(edit, at)(c))
  {
  }

  lemma InboxCommutes(rows: Rows, m: string, part: Part, f: Content -> Content, e: Event)
    requires (e.Delivered? || e.Cancelled?) && !Concerns(m, part, e)
    ensures Apply(OnPart(rows, m, part, f), e) == OnPart(Apply(rows, e), m, part, f)
  {
    OnRowKeepsId(part, f);
    match e
    case Delivered(inbox, at) => DeliverCommutes(rows, m, OnRow(part, f), inbox, at);
    case Cancelled(inbox) => CancelCommutes(rows, m, OnRow(part, f), inbox);
  }

  lemma EnqueuedCommutes(rows: Rows, m: string, part: Part, f: Content -> Content, e: Event)
    requires e.Enqueued?
    ensures Apply(OnPart(rows, m, part, f), e) == OnPart(Apply(rows, e), m, part, f)
  {
    hide Upsert, EditAssistant;
    OnRowKeepsId(part, f);
    match e.item
    case UserItem(text, extra) => UpsertCommutes(rows, m, OnRow(part, f), Input(e.inbox, User, text, extra, e.at));
    case SyntheticItem(text, extra) => UpsertCommutes(rows, m, OnRow(part, f), Input(e.inbox, Synthetic, text, extra, e.at));
    case OtherItem =>
  }

  lemma AddedCommutes(rows: Rows, m: string, part: Part, f: Content -> Content, e: Event)
    requires e.Synthesized? || e.Instructions?
    ensures Apply(OnPart(rows, m, part, f), e) == OnPart(Apply(rows, e), m, part, f)
  {
    OnRowKeepsId(part, f);
    match e
    case Synthesized(event, text, extra, at) =>
      AppendCommutes(rows, m, OnRow(part, f), Input(MessageId(event), Synthetic, text, extra, at));
    case Instructions(event, text, at) =>
      if text.Some? {
        AppendCommutes(rows, m, OnRow(part, f), Other(MessageId(event), text.value, at));
      }
  }

  lemma StartedCommutes(rows: Rows, m: string, part: Part, f: Content -> Content, e: Event)
    requires e.StepStarted?
    ensures Apply(OnPart(rows, m, part, f), e) == OnPart(Apply(rows, e), m, part, f)
  {
    hide StepStart;
    StepCommutes(rows, m, part, f, e);
  }

  lemma IgnoredCommutes(rows: Rows, m: string, part: Part, f: Content -> Content)
    ensures Apply(OnPart(rows, m, part, f), Ignored) == OnPart(Apply(rows, Ignored), m, part, f)
  {
  }

  /** Whatever is not about the part commutes with a change of it. */
  lemma OthersCommute(rows: Rows, m: string, part: Part, f: Content -> Content, e: Event)
    requires Steady(f) && !Concerns(m, part, e)
    ensures Apply(OnPart(rows, m, part, f), e) == OnPart(Apply(rows, e), m, part, f)
  {
    hide Steady, Apply, OnPart, Concerns;
    match e
    case Edited(_, _, _) => EditedCommutes(rows, m, part, f, e);
    case StepStarted(_, _, _, _, _, _, _) => StartedCommutes(rows, m, part, f, e);
    case Delivered(_, _) => InboxCommutes(rows, m, part, f, e);
    case Cancelled(_) => InboxCommutes(rows, m, part, f, e);
    case Enqueued(_, _, _) => EnqueuedCommutes(rows, m, part, f, e);
    case Synthesized(_, _, _, _) => AddedCommutes(rows, m, part, f, e);
    case Instructions(_, _, _) => AddedCommutes(rows, m, part, f, e);
    case Ignored => IgnoredCommutes(rows, m, part, f);
  }

  lemma EditedCommutes(rows: Rows, m: string, part: Part, f: Content -> Content, e: Event)
    requires Steady(f) && !Concerns(m, part, e) && e.Edited?
    ensures Apply(OnPart(rows, m, part, f), e) == OnPart(Apply(rows, e), m, part, f)
  {
    hide Steady, EditHead, EditContent;
    var g := EditRow(e.edit, e.at);
    OnRowKeepsId(part, f);
    assert KeepsId(g);
    if e.message != m {
      EditApart(rows, m, OnRow(part, f), e.message, g);
    } else {
      NewPartApart(m, part, e);
      var i := IndexOf(rows, m);
      EditKeepsIds(rows, m, OnRow(part, f), m);
      EditKeepsIds(rows, m, g, m);
      if i >= 0 && rows[i].Assistant? {
        EditRowApart(part, f, e.edit, e.at, rows[i]);
      }
    }
  }

  lemma NewPartApart(m: string, part: Part, e: Event)
    requires e.Edited? && e.message == m && !Concerns(m, part, e)
    ensures NewPart(e.edit, e.at) == [] || (|NewPart(e.edit, e.at)| == 1 && !Picks(part, NewPart(e.edit, e.at)[0]))
    ensures PartOf(e.edit) != Some(part)
  {
  }

  lemma UpsertCommutes(rows: Rows, m: string, f: Row -> Row, row: Row)
    requires KeepsId(f) && !row.Assistant?
    ensures Upsert(EditAssistant(rows, m, f), row) == EditAssistant(Upsert(rows, row), m, f)
  {
    hide IndexOf, ActiveIndex;
    EditKeepsIds(rows, m, f, row.id);
    var i, j := IndexOf(rows, row.id), IndexOf(rows, m);
    var after := Upsert(rows, row);
    if i >= 0 {
      SameIds(rows, after, m);
    } else if row.id == m {
      assert after[|rows|] == row;
    } else {
      AppendIndex(rows, row, m);
    }
  }

  lemma AppendIndex(rows: Rows, row: Row, m: string)
    requires row.id != m
    ensures IndexOf(rows + [row], m) == IndexOf(rows, m)
  {
    assert (rows + [row])[..|rows|] == rows;
  }

  lemma AppendCommutes(rows: Rows, m: string, f: Row -> Row, row: Row)
    requires KeepsId(f)
    requires row.Assistant? && row.id == m ==> f(row) == row
    ensures Append(EditAssistant(rows, m, f), row) == EditAssistant(Append(rows, row), m, f)
  {
    hide IndexOf, ActiveIndex;
    EditKeepsIds(rows, m, f, row.id);
    if IndexOf(rows, row.id) < 0 {
      var after := rows + [row];
      if row.id == m {
        assert after[|rows|].id == m;
        assert IndexOf(after, m) == |rows|;
        assert after[|rows| := row] == after;
      } else {
        AppendIndex(rows, row, m);
      }
    }
  }

  lemma RemoveIndex(rows: Rows, i: nat, m: string)
    requires i < |rows| && IndexOf(rows, m) != i
    ensures IndexOf(Remove(rows, i), m) == if IndexOf(rows, m) > i then IndexOf(rows, m) - 1 else IndexOf(rows, m)
  {
    hide IndexOf;
    var k, after := IndexOf(rows, m), Remove(rows, i);
    assert forall j :: 0 <= j < |after| ==> after[j] == if j < i then rows[j] else rows[j + 1];
    if k >= 0 {
      assert after[if k > i then k - 1 else k].id == m;
    }
  }

  lemma RemoveUpdate(rows: Rows, i: nat, k: nat, row: Row)
    requires i < |rows| && k < |rows| && i != k
    ensures Remove(rows[k := row], i) == Remove(rows, i)[(if k > i then k - 1 else k) := row]
    ensures Remove(rows, i)[if k > i then k - 1 else k] == rows[k]
  {
  }

  lemma CancelCommutes(rows: Rows, m: string, f: Row -> Row, inbox: string)
    requires KeepsId(f) && inbox != m
    ensures Cancel(EditAssistant(rows, m, f), inbox) == EditAssistant(Cancel(rows, inbox), m, f)
  {
    hide IndexOf, ActiveIndex;
    EditKeepsIds(rows, m, f, inbox);
    var i, k := IndexOf(rows, inbox), IndexOf(rows, m);
    if i >= 0 {
      RemoveIndex(rows, i, m);
      if k >= 0 {
        RemoveUpdate(rows, i, k, f(rows[k]));
      }
    }
  }

  lemma DeliverCommutes(rows: Rows, m: string, f: Row -> Row, inbox: string, at: int)
    requires KeepsId(f)
    ensures Deliver(EditAssistant(rows, m, f), inbox, at) == EditAssistant(Deliver(rows, inbox, at), m, f)
  {
    hide IndexOf, ActiveIndex;
    EditKeepsIds(rows, m, f, inbox);
    var i, k := IndexOf(rows, inbox), IndexOf(rows, m);
    if i >= 0 && rows[i].Input? {
      var moved := Dated(rows[i], at);
      var rest := Remove(rows, i);
      if inbox == m {
        assert (rest + [moved])[|rest|].id == m;
        assert IndexOf(rest + [moved], m) == |rest|;
      } else {
        CancelCommutes(rows, m, f, inbox);
        AppendIndex(rest, moved, m);
        EditOnPrefix(rest, moved, m, f);
      }
    }
  }

  lemma EditOnPrefix(rows: Rows, row: Row, m: string, f: Row -> Row)
    requires row.id != m
    ensures EditAssistant(rows + [row], m, f) == EditAssistant(rows, m, f) + [row]
  {
    AppendIndex(rows, row, m);
    var i := IndexOf(rows, m);
    if i >= 0 {
      assert (rows + [row])[i := f(rows[i])] == rows[i := f(rows[i])] + [row];
    }
  }

  lemma StepCommutes(rows: Rows, m: string, part: Part, f: Content -> Content, e: Event)
    requires e.StepStarted?
    ensures StepStart(OnPart(rows, m, part, f), e) == OnPart(StepStart(rows, e), m, part, f)
  {
    hide IndexOf, ActiveIndex;
    var g := OnRow(part, f);
    OnRowKeepsId(part, f);
    EditKeepsIds(rows, m, g, e.message);
    EditKeepsIds(rows, m, g, m);
    if Reopens(rows, e) {
      SameIds(rows, StepStart(rows, e), m);
    } else {
      CloseCommutes(rows, m, part, f, e.at);
      AppendCommutes(CloseActive(rows, e.at), m, g, NewStep(e));
    }
  }

  lemma CloseCommutes(rows: Rows, m: string, part: Part, f: Content -> Content, at: int)
    ensures CloseActive(OnPart(rows, m, part, f), at) == OnPart(CloseActive(rows, at), m, part, f)
  {
    hide IndexOf, ActiveIndex;
    var edited := OnPart(rows, m, part, f);
    OnRowKeepsId(part, f);
    EditKeepsIds(rows, m, OnRow(part, f), m);
    assert forall i :: 0 <= i < |rows| ==> Open(edited[i]) == Open(rows[i]);
    assert ActiveIndex(edited) == ActiveIndex(rows);
    SameIds(rows, CloseActive(rows, at), m);
  }

  function Without(m: string, part: Part, es: seq<Event>): seq<Event> {
    if es == [] then []
    else
      var before, last := Without(m, part, es[..|es| - 1]), es[|es| - 1];
      if IsDelta(m, part, last) then before else before + [last]
  }

  function Joined(m: string, part: Part, es: seq<Event>): string {
    if es == [] then ""
    else
      var before, last := Joined(m, part, es[..|es| - 1]), es[|es| - 1];
      if IsDelta(m, part, last) then before + last.edit.delta else before
  }

  /** However the deltas of a part are cut, and wherever they come among events that
      are not about it, the fold is that of the others with one delta at the end:
      all the pieces in one. */
  lemma {:induction false} DeltasJoin(rows: Rows, m: string, part: Part, es: seq<Event>)
    requires forall e :: e in es ==> IsDelta(m, part, e) || !Concerns(m, part, e)
    ensures Fold(rows, es) == Apply(Fold(rows, Without(m, part, es)), Delta(m, part, Joined(m, part, es)))
  {
    hide Apply, Concerns, Grow;
    var joined := Joined(m, part, es);
    var others := Without(m, part, es);
    DeltaOf(Fold(rows, others), m, part, joined);
    if es == [] {
      GrowNothing(rows, m, part);
    } else {
      var n := |es| - 1;
      var e := es[n];
      DeltasJoin(rows, m, part, es[..n]);
      var x := Fold(rows, Without(m, part, es[..n]));
      var before := Joined(m, part, es[..n]);
      DeltaOf(x, m, part, before);
      if IsDelta(m, part, e) {
        DeltaIsGrow(Fold(rows, es[..n]), m, part, e);
        GrowGrow(x, m, part, before, e.edit.delta);
      } else {
        SteadyGrow(before);
        OthersCommute(x, m, part, Grow(before), e);
        FoldAppend(rows, Without(m, part, es[..n]), e);
      }
    }
  }

  lemma FoldAppend(rows: Rows, es: seq<Event>, e: Event)
    ensures Fold(rows, es + [e]) == Apply(Fold(rows, es), e)
  {
    assert (es + [e])[..|es|] == es;
  }

  lemma DeltaOf(rows: Rows, m: string, part: Part, delta: string)
    ensures Apply(rows, Delta(m, part, delta)) == OnPart(rows, m, part, Grow(delta))
  {
    DeltaIsGrow(rows, m, part, Delta(m, part, delta));
  }

  /** Two streams with the same other events and the same text leave the same rows. */
  lemma SameText(rows: Rows, m: string, part: Part, a: seq<Event>, b: seq<Event>)
    requires forall e :: e in a ==> IsDelta(m, part, e) || !Concerns(m, part, e)
    requires forall e :: e in b ==> IsDelta(m, part, e) || !Concerns(m, part, e)
    requires Without(m, part, a) == Without(m, part, b) && Joined(m, part, a) == Joined(m, part, b)
    ensures Fold(rows, a) == Fold(rows, b)
  {
    DeltasJoin(rows, m, part, a);
    DeltasJoin(rows, m, part, b);
  }

  // ---- A part's end makes its deltas forgotten ----

  function Clear(c: Content): Content {
    match c
    case Text(_) => Text("")
    case Reasoning(_, _, _, _) => c.(text := "")
    case Tool(_, _, _, _, _, _, _, state) => if state.Streaming? then c.(state := Streaming("")) else c
  }

  /** The rows with the part's text taken out. */
  function Mask(rows: Rows, m: string, part: Part): Rows { OnPart(rows, m, part, Clear) }

  /** The event that gives a part its final text. */
  predicate Ends(m: string, part: Part, e: Event) {
    e.Edited? && e.message == m
    && match part
       case TextPart => e.edit.TextEnded?
       case ReasoningPart => e.edit.ReasoningEnded?
       case ToolPart(id) => e.edit.ToolInputEnded? && e.edit.tool == id
  }

  lemma SteadyClear()
    ensures Steady(Clear)
  {
  }

  lemma MaskMask(rows: Rows, m: string, part: Part)
    ensures Mask(Mask(rows, m, part), m, part) == Mask(rows, m, part)
  {
    hide OnPart, Steady;
    SteadyClear();
    ClearTwice();
    PartPart(rows, m, part, Clear, Clear, Clear);
  }

  lemma ClearTwice()
    ensures forall c :: Clear(Clear(c)) == Clear(c)
  {
  }

  lemma ClearGrown(delta: string)
    ensures forall c :: Clear(Grow(delta)(c)) == Clear(c)
  {
  }

  lemma MaskGrow(rows: Rows, m: string, part: Part, delta: string)
    ensures Mask(OnPart(rows, m, part, Grow(delta)), m, part) == Mask(rows, m, part)
  {
    hide OnPart, Steady, Grow, Clear;
    SteadyGrow(delta);
    ClearGrown(delta);
    PartPart(rows, m, part, Grow(delta), Clear, Clear);
  }

  /** An edit of the part is its change and nothing else. */
  lemma EditIsChange(rows: Rows, m: string, part: Part, e: Event)
    requires e.Edited? && e.message == m && PartOf(e.edit) == Some(part)
    ensures Apply(rows, e) == OnPart(rows, m, part, Change(e.edit, e.at))
  {
    hide IndexOf;
  }

  /** Edits that do not look at the text they replace. */
  predicate Overwrites(edit: Edit) {
    edit.TextEnded? || edit.ReasoningEnded? || edit.ToolInputEnded? || edit.ToolCalled? || edit.ToolFailed?
  }

  lemma OverwriteSame(rows: Rows, m: string, part: Part, e: Event)
    requires e.Edited? && e.message == m && PartOf(e.edit) == Some(part) && Overwrites(e.edit)
    ensures Apply(Mask(rows, m, part), e) == Apply(rows, e)
  {
    hide Apply, OnPart, Steady, Change, Clear;
    EditIsChange(rows, m, part, e);
    EditIsChange(Mask(rows, m, part), m, part, e);
    SteadyClear();
    ChangeOverwrites(part, e.edit, e.at);
    PartPart(rows, m, part, Clear, Change(e.edit, e.at), Change(e.edit, e.at));
  }

  lemma ChangeOverwrites(part: Part, edit: Edit, at: int)
    requires Overwrites(edit) && PartOf(edit) == Some(part)
    ensures forall c :: Picks(part, c) ==> Change(edit, at)(Clear(c)) == Change(edit, at)(c)
  {
  }

  lemma SteadyTool(edit: Edit, at: int)
    requires edit.ToolProgress? || edit.ToolSucceeded?
    ensures Steady(Change(edit, at))
  {
  }

  /** Progress and success wait for the call, when the streamed text is gone. */
  lemma ToolStepMasks(rows: Rows, m: string, part: Part, e: Event)
    requires e.Edited? && e.message == m && PartOf(e.edit) == Some(part)
    requires e.edit.ToolProgress? || e.edit.ToolSucceeded?
    ensures Mask(Apply(Mask(rows, m, part), e), m, part) == Mask(Apply(rows, e), m, part)
  {
    hide Apply, OnPart, Picks, Change, Clear;
    var f := Change(e.edit, e.at);
    EditIsChange(rows, m, part, e);
    EditIsChange(Mask(rows, m, part), m, part, e);
    SteadyClear();
    SteadyTool(e.edit, e.at);
    var fClear := (c: Content) => f(Clear(c));
    var clearF := (c: Content) => Clear(f(c));
    assert forall q, c :: Picks(q, fClear(c)) <==> Picks(q, Clear(c));
    forall c
      ensures Clear(fClear(c)) == clearF(c)
    {
      ToolStepClear(e.edit, e.at, c);
    }
    PartPart(rows, m, part, Clear, f, fClear);
    PartPart(rows, m, part, fClear, Clear, clearF);
    PartPart(rows, m, part, f, Clear, clearF);
  }

  lemma ToolStepClear(edit: Edit, at: int, c: Content)
    requires edit.ToolProgress? || edit.ToolSucceeded?
    ensures Clear(Change(edit, at)(Clear(c))) == Clear(Change(edit, at)(c))
  {
  }

  /** Events that start no new part of the kind see the same masked rows. */
  lemma MaskStep(rows: Rows, m: string, part: Part, e: Event)
    requires !Starts(m, part, e)
    ensures Mask(Apply(Mask(rows, m, part), e), m, part) == Mask(Apply(rows, e), m, part)
    ensures IsDelta(m, part, e) ==> Mask(Apply(rows, e), m, part) == Mask(rows, m, part)
  {
    hide Apply, Mask, Grow;
    MaskMask(rows, m, part);
    var masked := Mask(rows, m, part);
    if IsDelta(m, part, e) {
      DeltaIsGrow(rows, m, part, e);
      DeltaIsGrow(masked, m, part, e);
      MaskGrow(rows, m, part, e.edit.delta);
      MaskGrow(masked, m, part, e.edit.delta);
    } else if e == Cancelled(m) {
      CancelMasked(rows, m, part);
    } else if e.Edited? && e.message == m && PartOf(e.edit) == Some(part) {
      if Overwrites(e.edit) {
        OverwriteSame(rows, m, part, e);
      } else {
        ToolStepMasks(rows, m, part, e);
      }
    } else {
      SteadyClear();
      OthersCommuteMask(rows, m, part, e);
      MaskMask(Apply(rows, e), m, part);
    }
  }

  lemma OthersCommuteMask(rows: Rows, m: string, part: Part, e: Event)
    requires !Concerns(m, part, e)
    ensures Apply(Mask(rows, m, part), e) == Mask(Apply(rows, e), m, part)
  {
    SteadyClear();
    OthersCommute(rows, m, part, Clear, e);
  }

  lemma CancelMasked(rows: Rows, m: string, part: Part)
    ensures Apply(Mask(rows, m, part), Cancelled(m)) == Apply(rows, Cancelled(m))
  {
    hide IndexOf;
    OnRowKeepsId(part, Clear);
    EditKeepsIds(rows, m, OnRow(part, Clear), m);
  }

  lemma {:induction false} MaskFold(rows: Rows, m: string, part: Part, es: seq<Event>)
    requires forall e :: e in es ==> !Starts(m, part, e)
    ensures Mask(Fold(rows, es), m, part) == Mask(Fold(rows, Without(m, part, es)), m, part)
  {
    hide Apply, Mask, Starts;
    if es != [] {
      var n := |es| - 1;
      var e, before, others := es[n], Fold(rows, es[..n]), Fold(rows, Without(m, part, es[..n]));
      MaskFold(rows, m, part, es[..n]);
      MaskStep(before, m, part, e);
      if !IsDelta(m, part, e) {
        MaskStep(others, m, part, e);
        FoldAppend(rows, Without(m, part, es[..n]), e);
      }
    }
  }

  /** After the part's end the rows are those of the run without its deltas, whatever
      else happened, as long as no new part of the kind began in the message. */
  lemma EndForgetsDeltas(rows: Rows, m: string, part: Part, es: seq<Event>, end: Event)
    requires forall e :: e in es ==> !Starts(m, part, e)
    requires Ends(m, part, end)
    ensures Fold(rows, es + [end]) == Fold(rows, Without(m, part, es) + [end])
  {
    hide Apply, Mask, Starts;
    var with, without := Fold(rows, es), Fold(rows, Without(m, part, es));
    FoldAppend(rows, es, end);
    FoldAppend(rows, Without(m, part, es), end);
    MaskFold(rows, m, part, es);
    OverwriteSame(with, m, part, end);
    OverwriteSame(without, m, part, end);
  }

  // ---- Ids, and the rows an event does not name ----

  ghost predicate Distinct(rows: Rows) {
    forall i, j :: 0 <= i < j < |rows| ==> rows[i].id != rows[j].id
  }

  lemma EventKeepsDistinct(rows: Rows, e: Event)
    requires Distinct(rows)
    ensures Distinct(Apply(rows, e))
  {
    hide IndexOf, ActiveIndex, Distinct, Upsert, Append, Deliver, Cancel, StepStart, EditAssistant;
    match e
    case Enqueued(inbox, item, at) =>
      match item {
        case UserItem(text, extra) => UpsertDistinct(rows, Input(inbox, User, text, extra, at));
        case SyntheticItem(text, extra) => UpsertDistinct(rows, Input(inbox, Synthetic, text, extra, at));
        case OtherItem =>
      }
    case Delivered(inbox, at) => DeliverDistinct(rows, inbox, at);
    case Cancelled(inbox) => CancelDistinct(rows, inbox);
    case Synthesized(event, text, extra, at) =>
      AppendDistinct(rows, Input(MessageId(event), Synthetic, text, extra, at));
    case Instructions(event, text, at) =>
      if text.Some? {
        AppendDistinct(rows, Other(MessageId(event), text.value, at));
      }
    case StepStarted(_, _, _, _, _, _, _) => StepDistinct(rows, e);
    case Edited(message, edit, at) => EditDistinct(rows, message, EditRow(edit, at));
    case Ignored =>
  }

  lemma UpsertDistinct(rows: Rows, row: Row)
    requires Distinct(rows)
    ensures Distinct(Upsert(rows, row))
  {
    hide IndexOf;
  }

  lemma AppendDistinct(rows: Rows, row: Row)
    requires Distinct(rows)
    ensures Distinct(Append(rows, row))
  {
    hide IndexOf;
  }

  lemma CancelDistinct(rows: Rows, inbox: string)
    requires Distinct(rows)
    ensures Distinct(Cancel(rows, inbox))
  {
    hide IndexOf;
  }

  lemma DeliverDistinct(rows: Rows, inbox: string, at: int)
    requires Distinct(rows)
    ensures Distinct(Deliver(rows, inbox, at))
  {
    hide IndexOf;
  }

  lemma StepDistinct(rows: Rows, e: Event)
    requires Distinct(rows) && e.StepStarted?
    ensures Distinct(StepStart(rows, e))
  {
    hide IndexOf, ActiveIndex;
  }

  lemma EditDistinct(rows: Rows, m: string, f: Row -> Row)
    requires Distinct(rows) && forall row: Row :: f(row).id == row.id
    ensures Distinct(EditAssistant(rows, m, f))
  {
    hide IndexOf;
  }

  lemma {:induction false} FoldKeepsDistinct(rows: Rows, es: seq<Event>)
    requires Distinct(rows)
    ensures Distinct(Fold(rows, es))
  {
    hide Apply, Distinct;
    if es != [] {
      FoldKeepsDistinct(rows, es[..|es| - 1]);
      EventKeepsDistinct(Fold(rows, es[..|es| - 1]), es[|es| - 1]);
    }
  }

  /** The one row an event names. */
  function Named(e: Event): Option<string> {
    match e
    case Enqueued(inbox, _, _) => Some(inbox)
    case Delivered(inbox, _) => Some(inbox)
    case Cancelled(inbox) => Some(inbox)
    case Synthesized(event, _, _, _) => Some(MessageId(event))
    case Instructions(event, _, _) => Some(MessageId(event))
    case StepStarted(message, _, _, _, _, _, _) => Some(message)
    case Edited(message, _, _) => Some(message)
    case Ignored => None
  }

  /** All rows but those named. */
  function Rest(rows: Rows, id: string): Rows {
    if rows == [] then []
    else Rest(rows[..|rows| - 1], id) + if rows[|rows| - 1].id == id then [] else [rows[|rows| - 1]]
  }

  lemma RestAppend(rows: Rows, row: Row, id: string)
    ensures Rest(rows + [row], id) == Rest(rows, id) + if row.id == id then [] else [row]
  {
    assert (rows + [row])[..|rows|] == rows;
  }

  lemma {:induction false} RestUpdate(rows: Rows, i: nat, row: Row)
    requires i < |rows| && rows[i].id == row.id
    ensures Rest(rows[i := row], row.id) == Rest(rows, row.id)
  {
    var n := |rows| - 1;
    if i < n {
      RestUpdate(rows[..n], i, row);
      assert rows[i := row][..n] == rows[..n][i := row];
    } else {
      assert rows[i := row][..n] == rows[..n];
    }
  }

  lemma {:induction false} RestRemove(rows: Rows, i: nat)
    requires i < |rows|
    ensures Rest(Remove(rows, i), rows[i].id) == Rest(rows, rows[i].id)
    decreases |rows|
  {
    var n := |rows| - 1;
    if i < n {
      RestRemove(rows[..n], i);
      assert Remove(rows, i)[..n - 1] == Remove(rows[..n], i);
    } else {
      assert Remove(rows, i) == rows[..n];
    }
  }

  /** What an event does not name stays as it is and in its order; a fresh step only
      closes the open one. */
  lemma OthersStay(rows: Rows, e: Event)
    requires Named(e).Some?
    ensures var id := Named(e).value;
            Rest(Apply(rows, e), id)
            == Rest(if e.StepStarted? && !Reopens(rows, e) then CloseActive(rows, e.at) else rows, id)
  {
    hide IndexOf, Rest, EditRow, CloseActive;
    var id := Named(e).value;
    var i := IndexOf(rows, id);
    match e
    case Enqueued(_, item, at) =>
      if item != OtherItem {
        var row := Input(id, if item.UserItem? then User else Synthetic, item.text, item.extra, at);
        if i >= 0 {
          RestUpdate(rows, i, row);
        } else {
          RestAppend(rows, row, id);
        }
      }
    case Delivered(_, at) =>
      if i >= 0 && rows[i].Input? {
        RestRemove(rows, i);
        RestAppend(Remove(rows, i), Dated(rows[i], at), id);
      }
    case Cancelled(_) =>
      if i >= 0 {
        RestRemove(rows, i);
      }
    case Synthesized(_, text, extra, at) => RestAppend(rows, Input(id, Synthetic, text, extra, at), id);
    case Instructions(_, words, at) =>
      if words.Some? {
        RestAppend(rows, Other(id, words.value, at), id);
      }
    case StepStarted(_, _, _, _, _, _, _) =>
      if Reopens(rows, e) {
        RestUpdate(rows, i, Reopen(rows[i], e));
      } else {
        RestAppend(CloseActive(rows, e.at), NewStep(e), id);
      }
    case Edited(_, edit, at) =>
      EditStays(rows, e);
  }

  lemma EditStays(rows: Rows, e: Event)
    requires e.Edited?
    ensures Rest(Apply(rows, e), e.message) == Rest(rows, e.message)
  {
    hide IndexOf, Rest, EditContent, EditHead;
    var i := IndexOf(rows, e.message);
    if i >= 0 && rows[i].Assistant? {
      RestUpdate(rows, i, EditRow(e.edit, e.at)(rows[i]));
    }
  }

  // ---- Open assistant rows ----

  ghost predicate AtMostOneOpen(rows: Rows) {
    forall i, j :: 0 <= i < j < |rows| ==> !(Open(rows[i]) && Open(rows[j]))
  }

  /** A step leaves two rows open exactly when it reopens one while another is open,
      or adds one while the open one is closed at time zero, which reads as not. */
  lemma StepOpensOne(rows: Rows, e: Event)
    requires AtMostOneOpen(rows) && e.StepStarted?
    ensures AtMostOneOpen(Apply(rows, e)) <==>
              var i, k := IndexOf(rows, e.message), ActiveIndex(rows);
              k < 0 || (if Reopens(rows, e) then k == i else i >= 0 || e.at != 0)
  {
    hide IndexOf, ActiveIndex;
    var i, k := IndexOf(rows, e.message), ActiveIndex(rows);
    var after := Apply(rows, e);
    if Reopens(rows, e) {
      assert Open(after[i]);
      assert k >= 0 && k != i ==> Open(after[k]);
    } else if k >= 0 {
      var closed := CloseActive(rows, e.at);
      assert Open(closed[k]) <==> e.at == 0;
      SameIds(rows, closed, e.message);
      assert i < 0 ==> after == closed + [NewStep(e)] && Open(after[|rows|]) && after[k] == closed[k];
    }
  }

  /** A retry of a done step, while a later one is open, leaves both open. */
  lemma ReopenLeavesTwo(done: Row, open: Row, e: Event)
    requires done.Assistant? && !Open(done) && Open(open) && done.id != open.id
    requires e.StepStarted? && e.message == done.id
    ensures AtMostOneOpen([done, open]) && !AtMostOneOpen(Apply([done, open], e))
  {
    hide IndexOf;
    var rows := [done, open];
    assert rows[0].id == e.message;
    var after := Apply(rows, e);
    assert Open(after[0]) && Open(after[1]);
  }

  // ---- Pages of the projection ----

  function Replaced(rows: Rows, fetched: Rows): (r: Rows)
    ensures |r| == |rows|
  {
    if rows == [] then []
    else
      var last := rows[|rows| - 1];
      var i := IndexOf(fetched, last.id);
      Replaced(rows[..|rows| - 1], fetched) + [if i < 0 then last else fetched[i]]
  }

  /** The fetched rows that are not there yet, in their order. */
  function Unknown(rows: Rows, fetched: Rows): Rows {
    if fetched == [] then []
    else
      var last := fetched[|fetched| - 1];
      Unknown(rows, fetched[..|fetched| - 1]) + if IndexOf(rows, last.id) < 0 then [last] else []
  }

  function Merge(rows: Rows, fetched: Rows): Rows {
    if fetched == [] then rows else Replaced(rows, fetched) + Unknown(rows, fetched)
  }

  /** `new Map(fetched.map((m) => [m.id, m]))` */
  method Index(fetched: Rows) returns (byId: map<string, Row>)
    ensures IndexedBy(byId, fetched)
  {
    hide IndexOf;
    byId := map[];
    for i := 0 to |fetched|
      invariant IndexedBy(byId, fetched[..i])
    {
      IndexedAppend(byId, fetched[..i], fetched[i]);
      assert fetched[..i + 1] == fetched[..i] + [fetched[i]];
      byId := byId[fetched[i].id := fetched[i]];
    }
    assert fetched[..|fetched|] == fetched;
  }

  /** `mergeProjection` */
  method MergeProjection(rows: Rows, fetched: Rows) returns (next: Rows)
    ensures next == Merge(rows, fetched)
  {
    hide IndexOf;
    if |fetched| == 0 {
      return rows;
    }
    var byId := Index(fetched);
    next := [];
    for i := 0 to |rows|
      invariant next == Replaced(rows[..i], fetched)
    {
      assert rows[..i + 1][..i] == rows[..i];
      next := next + [if rows[i].id in byId then byId[rows[i].id] else rows[i]];
    }
    assert rows[..|rows|] == rows;
    var more := Missing(rows, fetched);
    next := next + more;
  }

  /** The filter of the fetched rows by the ids that are there. */
  method Missing(rows: Rows, fetched: Rows) returns (more: Rows)
    ensures more == Unknown(rows, fetched)
  {
    hide IndexOf;
    var present := set row | row in rows :: row.id;
    PresentIndex(rows, present);
    more := [];
    for i := 0 to |fetched|
      invariant more == Unknown(rows, fetched[..i])
    {
      assert fetched[..i + 1][..i] == fetched[..i];
      if fetched[i].id !in present {
        more := more + [fetched[i]];
      }
    }
    assert fetched[..|fetched|] == fetched;
  }

  /** The map holds the last row of each id. */
  ghost predicate IndexedBy(byId: map<string, Row>, rows: Rows) {
    && (forall id :: id in byId <==> IndexOf(rows, id) >= 0)
    && forall id :: id in byId ==> byId[id] == rows[IndexOf(rows, id)]
  }

  lemma IndexedAppend(byId: map<string, Row>, rows: Rows, row: Row)
    requires IndexedBy(byId, rows)
    ensures IndexedBy(byId[row.id := row], rows + [row])
  {
    assert (rows + [row])[..|rows|] == rows;
  }

  lemma PresentIndex(rows: Rows, present: set<string>)
    requires present == set row | row in rows :: row.id
    ensures forall id :: id in present <==> IndexOf(rows, id) >= 0
  {
    hide IndexOf;
    forall id
      ensures id in present <==> IndexOf(rows, id) >= 0
    {
      var i := IndexOf(rows, id);
      assert i >= 0 ==> rows[i] in rows;
    }
  }

  lemma {:induction false} ReplacedAt(rows: Rows, fetched: Rows, i: nat)
    requires i < |rows|
    ensures var k := IndexOf(fetched, rows[i].id);
            Replaced(rows, fetched)[i] == if k < 0 then rows[i] else fetched[k]
  {
    hide IndexOf;
    if i < |rows| - 1 {
      ReplacedAt(rows[..|rows| - 1], fetched, i);
    }
  }

  lemma {:induction false} UnknownIs(rows: Rows, fetched: Rows)
    ensures forall row :: row in Unknown(rows, fetched) <==> row in fetched && IndexOf(rows, row.id) < 0
    ensures Distinct(fetched) ==> Distinct(Unknown(rows, fetched))
  {
    hide IndexOf;
    if fetched != [] {
      var n := |fetched| - 1;
      UnknownIs(rows, fetched[..n]);
      assert fetched == fetched[..n] + [fetched[n]];
      var before := Unknown(rows, fetched[..n]);
      assert forall i :: 0 <= i < |before| ==> before[i] in before;
    }
  }

  /** Every id is there once, the rows that were there keep their places, a fetched
      row wins over the one that was there, and the new ones come behind. */
  lemma MergeIs(rows: Rows, fetched: Rows)
    requires Distinct(rows) && Distinct(fetched)
    ensures var merged := Merge(rows, fetched);
            && Distinct(merged)
            && |merged| >= |rows|
            && (forall i :: 0 <= i < |rows| ==>
                  merged[i].id == rows[i].id && (IndexOf(fetched, rows[i].id) < 0 ==> merged[i] == rows[i]))
            && (forall row :: row in fetched ==> row in merged)
            && (forall row :: row in merged[|rows|..] ==> row in fetched && IndexOf(rows, row.id) < 0)
  {
    hide IndexOf, Replaced;
    var merged := Merge(rows, fetched);
    if fetched != [] {
      UnknownIs(rows, fetched);
      forall i | 0 <= i < |rows|
        ensures merged[i].id == rows[i].id
        ensures IndexOf(fetched, rows[i].id) < 0 ==> merged[i] == rows[i]
        ensures IndexOf(fetched, rows[i].id) >= 0 ==> merged[i] == fetched[IndexOf(fetched, rows[i].id)]
      {
        ReplacedAt(rows, fetched, i);
      }
      assert merged[|rows|..] == Unknown(rows, fetched);
      forall i | |rows| <= i < |merged|
        ensures IndexOf(rows, merged[i].id) < 0
      {
        assert merged[i] == merged[|rows|..][i - |rows|];
      }
      forall row | row in fetched
        ensures row in merged
      {
        var k := IndexOf(rows, row.id);
        if k >= 0 {
          assert merged[k] == row;
        } else {
          assert row in merged[|rows|..];
        }
      }
      MergedDistinct(rows, fetched, merged);
    }
  }

  lemma MergedDistinct(rows: Rows, fetched: Rows, merged: Rows)
    requires Distinct(rows) && Distinct(Unknown(rows, fetched)) && |merged| >= |rows|
    requires merged[|rows|..] == Unknown(rows, fetched)
    requires forall i :: 0 <= i < |rows| ==> merged[i].id == rows[i].id
    requires forall i :: |rows| <= i < |merged| ==> IndexOf(rows, merged[i].id) < 0
    ensures Distinct(merged)
  {
    hide IndexOf, Unknown;
    var more := merged[|rows|..];
    assert forall i :: |rows| <= i < |merged| ==> merged[i] == more[i - |rows|];
  }

  lemma UnknownMore(rows: Rows, fetched: Rows)
    ensures fetched == [] ==> Unknown(rows, fetched) == []
    ensures fetched != [] ==>
              var last := fetched[|fetched| - 1];
              Unknown(rows, fetched)
              == Unknown(rows, fetched[..|fetched| - 1]) + if IndexOf(rows, last.id) < 0 then [last] else []
  {
  }

  /** The new rows come in the page's order. */
  lemma {:induction false} UnknownInOrder(rows: Rows, fetched: Rows)
    requires Distinct(fetched)
    ensures var more := Unknown(rows, fetched);
            forall x, y :: 0 <= x < y < |more| ==> IndexOf(fetched, more[x].id) < IndexOf(fetched, more[y].id)
  {
    hide IndexOf, Unknown;
    if fetched == [] {
      UnknownMore(rows, fetched);
    } else {
      UnknownMore(rows, fetched);
      var n := |fetched| - 1;
      var last := fetched[n];
      UnknownInOrder(rows, fetched[..n]);
      UnknownIs(rows, fetched[..n]);
      var before := Unknown(rows, fetched[..n]);
      forall x | 0 <= x < |before|
        ensures IndexOf(fetched, before[x].id) == IndexOf(fetched[..n], before[x].id) < n
      {
        assert before[x] in before;
        assert before[x] in fetched[..n];
        var k := IndexOf(fetched[..n], before[x].id);
        assert fetched[k].id == before[x].id;
      }
      assert IndexOf(fetched, last.id) == n;
    }
  }

  /** Merging the same page again changes nothing. */
  lemma MergeIdempotent(rows: Rows, fetched: Rows)
    requires Distinct(rows) && Distinct(fetched)
    ensures Merge(Merge(rows, fetched), fetched) == Merge(rows, fetched)
  {
    hide IndexOf, Replaced, Unknown;
    var merged := Merge(rows, fetched);
    MergeIs(rows, fetched);
    if fetched != [] {
      forall i | 0 <= i < |merged|
        ensures Replaced(merged, fetched)[i] == merged[i]
      {
        ReplacedAt(merged, fetched, i);
        var k := IndexOf(fetched, merged[i].id);
        if k >= 0 {
          assert fetched[k] in merged;
        }
      }
      UnknownIs(merged, fetched);
      assert forall row :: row in fetched ==> IndexOf(merged, row.id) >= 0;
      NothingUnknown(merged, fetched);
    }
  }

  lemma EmptyIfNone(rows: Rows)
    ensures rows == [] || exists row :: row in rows
  {
    if rows != [] {
      assert rows[0] in rows;
    }
  }

  lemma NothingUnknown(rows: Rows, fetched: Rows)
    requires forall row :: row in fetched ==> IndexOf(rows, row.id) >= 0
    ensures Unknown(rows, fetched) == []
  {
    UnknownIs(rows, fetched);
    EmptyIfNone(Unknown(rows, fetched));
  }
}
