/**
 What the events of the live transcript put into the rows they name
 (`packages/oc-client/src/transcript-reducer.ts`): one event at a time, and over the
 life of a text, a tool call, a step and an input.
 */
module TranscriptContents {
  import opened Wrappers
  import opened TranscriptReducer

  // ---- One event ----

  /** The row the id names: the last one that has it. */
  ghost predicate RowOf(rows: Rows, id: string, i: nat) {
    i < |rows| && rows[i].id == id && forall j :: i < j < |rows| ==> rows[j].id != id
  }

  ghost predicate NoRow(rows: Rows, id: string) { forall j :: 0 <= j < |rows| ==> rows[j].id != id }

  /** The items an edit can be to: texts, reasonings not completed, calls of its tool. */
  predicate Fits(edit: Edit, c: Content) {
    match edit
    case TextDelta(_) => c.Text?
    case TextEnded(_) => c.Text?
    case ReasoningDelta(_) => c.Reasoning? && (c.completed == None || c.completed == Some(0))
    case ReasoningEnded(_, _) => c.Reasoning? && (c.completed == None || c.completed == Some(0))
    case ToolDelta(id, _) => c.Tool? && c.id == id
    case ToolInputEnded(id, _) => c.Tool? && c.id == id
    case ToolCalled(id, _, _, _) => c.Tool? && c.id == id
    case ToolProgress(id, _) => c.Tool? && c.id == id
    case ToolSucceeded(id, _, _, _, _) => c.Tool? && c.id == id
    case ToolFailed(id, _, _, _, _, _) => c.Tool? && c.id == id
    case _ => false
  }

  /** The item an edit is to: the last that fits. */
  ghost predicate Target(content: seq<Content>, edit: Edit, k: nat) {
    k < |content| && Fits(edit, content[k]) && forall l :: k < l < |content| ==> !Fits(edit, content[l])
  }

  /** The native data of a tool after more came: later keys win. */
  ghost predicate Joins(was: Option<Native>, more: Option<Native>, now: Option<Native>) {
    && (more.None? ==> now == was)
    && (more.Some? ==>
          && now.Some?
          && (forall key :: key in now.value <==> key in more.value || (was.Some? && key in was.value))
          && (forall key :: key in now.value ==>
                now.value[key] == if key in more.value then more.value[key] else was.value[key]))
  }

  /** The tool as it was, but for what a call, a result or a failure sets. */
  ghost predicate SameTool(a: Content, b: Content) {
    a.Tool? && b.Tool? && b.id == a.id && b.name == a.name && b.started == a.started
  }

  /** What the item an edit is to becomes. */
  ghost predicate Becomes(edit: Edit, at: int, a: Content, b: Content)
    requires Fits(edit, a)
  {
    match edit
    case TextDelta(delta) => b == Text(a.text + delta)
    case TextEnded(text) => b == Text(text)
    case ReasoningDelta(delta) => b == Reasoning(a.text + delta, a.native, a.created, a.completed)
    case ReasoningEnded(text, native) =>
      b == Reasoning(text, if native.Some? then native else a.native, if a.created.Some? then a.created else Some(at), Some(at))
    case ToolDelta(_, delta) =>
      SameTool(a, b) && SameRest(a, b) && b.state == if a.state.Streaming? then Streaming(a.state.text + delta) else a.state
    case ToolInputEnded(_, text) =>
      SameTool(a, b) && SameRest(a, b) && b.state == if a.state.Streaming? then Streaming(text) else a.state
    case ToolCalled(_, executed, native, input) =>
      && SameTool(a, b) && b.state == Running(input, Some("{}")) && b.ran == Some(at) && b.completed == a.completed
      && b.executed == Some(executed) && b.native == if native.Some? then native else a.native
    case ToolProgress(_, metadata) =>
      && SameTool(a, b) && SameRest(a, b)
      && b.state == if a.state.Running? then Running(a.state.input, Some(metadata)) else a.state
    case ToolSucceeded(_, executed, native, metadata, result) =>
      if a.state.Running? then
        Concludes(a, b, executed, native, at) && b.state == Completed(a.state.input, metadata, result)
      else b == a
    case ToolFailed(_, executed, native, metadata, failure, partial) =>
      match a.state
      case Streaming(_) => Concludes(a, b, executed, native, at) && b.state == Errored("{}", failure, metadata, partial)
      case Running(input, _) => Concludes(a, b, executed, native, at) && b.state == Errored(input, failure, metadata, partial)
      case _ => b == a
  }

  ghost predicate SameRest(a: Content, b: Content)
    requires SameTool(a, b)
  {
    b.native == a.native && b.executed == a.executed && b.ran == a.ran && b.completed == a.completed
  }

  /** The call is over at `at`; once executed it stays so. */
  ghost predicate Concludes(a: Content, b: Content, executed: bool, native: Option<Native>, at: int) {
    && SameTool(a, b) && b.ran == a.ran && b.completed == Some(at)
    && b.executed.Some? && (b.executed.value <==> executed || a.executed == Some(true))
    && Joins(a.native, native, b.native)
  }

  /** What becomes of the content: a new item behind, a change of the one item the edit
      is to, or nothing. */
  ghost predicate ContentBecomes(edit: Edit, at: int, a: seq<Content>, b: seq<Content>) {
    match edit
    case TextStarted => b == a + [Text("")]
    case ReasoningStarted(native) => b == a + [Reasoning("", native, Some(at), None)]
    case ToolStarted(id, name) => b == a + [Tool(id, name, None, None, at, None, None, Streaming(""))]
    case _ => ItemBecomes(edit, at, a, b)
  }

  ghost predicate ItemBecomes(edit: Edit, at: int, a: seq<Content>, b: seq<Content>) {
    && |b| == |a|
    && (forall k :: 0 <= k < |a| && !Target(a, edit, k) ==> b[k] == a[k])
    && (forall k :: 0 <= k < |a| && Target(a, edit, k) ==> Becomes(edit, at, a[k], b[k]))
  }

  /** What becomes of a step's own data. */
  ghost predicate HeadBecomes(edit: Edit, at: int, a: Head, b: Head) {
    && b.agent == a.agent && b.model == a.model && b.metadata == a.metadata && b.created == a.created
    && b.streamed == (if edit.Streamed? then Some(at) else a.streamed)
    && b.completed == (if edit.StepEnded? || edit.StepFailed? then Some(at) else a.completed)
    && b.retry == (if edit.Retried? then Some(edit.retry) else if edit.StepFailed? then None else a.retry)
    && b.error == (if edit.StepFailed? then Some(edit.error) else a.error)
    && (edit.StepEnded? ==>
          && b.finish == edit.finish && b.rawFinish == edit.rawFinish && b.native == edit.native
          && b.cost == edit.cost && b.tokens == edit.tokens
          && (edit.snapshot.None? ==> b.snapshot == a.snapshot)
          && (edit.snapshot.Some? ==>
                b.snapshot.Some? && b.snapshot.value.end == edit.snapshot
                && b.snapshot.value.start == if a.snapshot.Some? then a.snapshot.value.start else None))
    && (edit.StepFailed? ==>
          && b.finish.Some? && b.finish.value == (if edit.finish.Some? then edit.finish.value else "error")
          && b.rawFinish == edit.rawFinish && b.native == edit.native && b.snapshot == a.snapshot
          && (edit.usage.None? ==> b.cost == a.cost && b.tokens == a.tokens)
          && (edit.usage.Some? ==> b.cost == Some(edit.usage.value.0) && b.tokens == Some(edit.usage.value.1)))
    && (!edit.StepEnded? && !edit.StepFailed? ==>
          b.finish == a.finish && b.rawFinish == a.rawFinish && b.native == a.native
          && b.cost == a.cost && b.tokens == a.tokens && b.snapshot == a.snapshot)
  }

  lemma {:induction false} EditLastIs(content: seq<Content>, part: Part, f: Content -> Content)
    ensures var b := EditLast(content, part, f);
            forall k :: 0 <= k < |content| ==>
              b[k] == if Picks(part, content[k]) && (forall l :: k < l < |content| ==> !Picks(part, content[l]))
                      then f(content[k]) else content[k]
  {
    hide Picks;
    if content != [] {
      var n := |content| - 1;
      EditLastIs(content[..n], part, f);
    }
  }

  lemma FitsIsPicks(edit: Edit, c: Content)
    ensures Fits(edit, c) <==> PartOf(edit).Some? && Picks(PartOf(edit).value, c)
  {
  }

  lemma ChangeBecomes(edit: Edit, at: int, a: Content)
    requires Fits(edit, a)
    ensures Becomes(edit, at, a, Change(edit, at)(a))
  {
  }

  lemma EditedItem(edit: Edit, at: int, content: seq<Content>)
    requires PartOf(edit).Some?
    ensures ItemBecomes(edit, at, content, EditLast(content, PartOf(edit).value, Change(edit, at)))
  {
    hide Fits, Change, PartOf, Becomes, EditLast, Picks;
    var part := PartOf(edit).value;
    EditLastIs(content, part, Change(edit, at));
    forall k | 0 <= k < |content|
      ensures Fits(edit, content[k]) <==> Picks(part, content[k])
      ensures Fits(edit, content[k]) ==> Becomes(edit, at, content[k], Change(edit, at)(content[k]))
    {
      FitsIsPicks(edit, content[k]);
      if Fits(edit, content[k]) {
        ChangeBecomes(edit, at, content[k]);
      }
    }
  }

  lemma EditedContent(edit: Edit, at: int, content: seq<Content>)
    ensures ContentBecomes(edit, at, content, EditContent(content, edit, at))
  {
    hide ItemBecomes, EditLast, Change;
    if PartOf(edit).Some? {
      EditedItem(edit, at, content);
    } else if NewPart(edit, at) == [] {
      assert content + [] == content;
      NothingFits(edit, at, content);
    }
  }

  lemma NothingFits(edit: Edit, at: int, content: seq<Content>)
    requires PartOf(edit).None?
    ensures ItemBecomes(edit, at, content, content)
  {
  }

  lemma EditedHead(edit: Edit, at: int, head: Head)
    ensures HeadBecomes(edit, at, head, EditHead(head, edit, at))
  {
  }

  lemma NamedIndex(rows: Rows, id: string, i: nat)
    requires RowOf(rows, id, i)
    ensures IndexOf(rows, id) == i
  {
  }

  /** An edit changes its message and nothing else: its own data and its content as
      told; any other row, and a message that is not there, it leaves alone. */
  lemma EditTells(rows: Rows, m: string, edit: Edit, at: int)
    ensures var t := Apply(rows, Edited(m, edit, at));
            && (forall i: nat :: RowOf(rows, m, i) && rows[i].Assistant? ==>
                  && |t| == |rows| && t == rows[i := t[i]]
                  && t[i].Assistant? && t[i].id == m
                  && HeadBecomes(edit, at, rows[i].head, t[i].head)
                  && ContentBecomes(edit, at, rows[i].content, t[i].content))
            && (NoRow(rows, m) ==> t == rows)
            && (forall i: nat :: RowOf(rows, m, i) && !rows[i].Assistant? ==> t == rows)
  {
    hide HeadBecomes, ContentBecomes, EditHead, EditContent;
    forall i: nat | RowOf(rows, m, i)
      ensures IndexOf(rows, m) == i
    {
      NamedIndex(rows, m, i);
    }
    var i := IndexOf(rows, m);
    if i >= 0 && rows[i].Assistant? {
      EditedContent(edit, at, rows[i].content);
      EditedHead(edit, at, rows[i].head);
    }
  }

  /** The row an inbox item is, at this time. */
  function InputRow(inbox: string, item: Item, at: int): Row
    requires !item.OtherItem?
  {
    Input(inbox, if item.UserItem? then User else Synthetic, item.text, item.extra, at)
  }

  ghost predicate Drops(rows: Rows, i: nat, t: Rows)
    requires i < |rows|
  {
    t == rows[..i] + rows[i + 1..]
  }

  /** What the inbox does to the rows: an item takes the place of the row of its id, or
      comes last; delivery moves it to the end with the time of delivery; a cancelled
      one goes. */
  lemma InboxTells(rows: Rows, inbox: string, item: Item, at: int)
    ensures var t := Apply(rows, Enqueued(inbox, item, at));
            && (item.OtherItem? ==> t == rows)
            && (!item.OtherItem? && NoRow(rows, inbox) ==> t == rows + [InputRow(inbox, item, at)])
            && (!item.OtherItem? ==> forall i: nat :: RowOf(rows, inbox, i) ==> t == rows[i := InputRow(inbox, item, at)])
    ensures var t := Apply(rows, Delivered(inbox, at));
            && (NoRow(rows, inbox) ==> t == rows)
            && (forall i: nat :: RowOf(rows, inbox, i) ==>
                  match rows[i]
                  case Input(_, kind, text, extra, _) =>
                    |t| == |rows| && Drops(rows, i, t[..|rows| - 1]) && t[|rows| - 1] == Input(inbox, kind, text, extra, at)
                  case _ => t == rows)
    ensures var t := Apply(rows, Cancelled(inbox));
            && (NoRow(rows, inbox) ==> t == rows)
            && (forall i: nat :: RowOf(rows, inbox, i) ==> Drops(rows, i, t))
  {
    forall i: nat | RowOf(rows, inbox, i)
      ensures IndexOf(rows, inbox) == i
    {
      NamedIndex(rows, inbox, i);
    }
  }

  /** Words of the agent's own come last, under the event's number, unless they are
      there already. */
  lemma WordsTell(rows: Rows, number: string, text: string, words: Option<string>, extra: Blob, at: int)
    ensures var t, id := Apply(rows, Synthesized("evt_" + number, text, extra, at)), "msg_" + number;
            t == if NoRow(rows, id) then rows + [Input(id, Synthetic, text, extra, at)] else rows
    ensures var t, id := Apply(rows, Instructions("evt_" + number, words, at)), "msg_" + number;
            t == if words.Some? && NoRow(rows, id) then rows + [Other(id, words.value, at)] else rows
  {
    assert ("evt_" + number)[4..] == number;
    assert "evt_" <= "evt_" + number;
  }

  // ---- The row of an id, along a run ----

  function RowAt(rows: Rows, id: string): Option<Row> {
    var i := IndexOf(rows, id);
    if i < 0 then None else Some(rows[i])
  }

  lemma AtAppend(rows: Rows, row: Row, id: string)
    ensures RowAt(rows + [row], id) == if row.id == id then Some(row) else RowAt(rows, id)
  {
    assert (rows + [row])[..|rows|] == rows;
  }

  lemma AtUpdate(rows: Rows, i: nat, row: Row, id: string)
    requires i < |rows| && rows[i].id == row.id
    ensures RowAt(rows[i := row], id) == if IndexOf(rows, id) == i then Some(row) else RowAt(rows, id)
  {
    SameIds(rows, rows[i := row], id);
  }

  lemma {:induction false} AtRemove(rows: Rows, i: nat, id: string)
    requires i < |rows| && rows[i].id != id
    ensures RowAt(Remove(rows, i), id) == RowAt(rows, id)
    decreases |rows|
  {
    var n := |rows| - 1;
    if i == n {
      assert Remove(rows, i) == rows[..n];
    } else {
      AtRemove(rows[..n], i, id);
      assert Remove(rows, i) == Remove(rows[..n], i) + [rows[n]];
      AtAppend(Remove(rows[..n], i), rows[n], id);
    }
  }

  /** The same row, but for a step that another one closed. */
  ghost predicate Stays(a: Option<Row>, b: Option<Row>) {
    || b == a
    || (a.Some? && b.Some? && a.value.Assistant? && b.value.Assistant? && b.value.id == a.value.id
        && b.value.content == a.value.content && b.value.head.created == a.value.head.created)
  }

  lemma UnnamedStays(rows: Rows, e: Event, id: string)
    requires Named(e) != Some(id)
    ensures Stays(RowAt(rows, id), RowAt(Apply(rows, e), id))
    ensures !e.StepStarted? ==> RowAt(Apply(rows, e), id) == RowAt(rows, id)
  {
    hide IndexOf, ActiveIndex, EditRow;
    match e
    case Enqueued(inbox, item, at) =>
      if !item.OtherItem? {
        UpsertAside(rows, InputRow(inbox, item, at), id);
      }
    case Delivered(inbox, at) => DeliverAside(rows, inbox, at, id);
    case Cancelled(inbox) =>
      if IndexOf(rows, inbox) >= 0 {
        AtRemove(rows, IndexOf(rows, inbox), id);
      }
    case Synthesized(event, text, extra, at) => AtAppend(rows, Input(MessageId(event), Synthetic, text, extra, at), id);
    case Instructions(event, words, at) =>
      if words.Some? {
        AtAppend(rows, Other(MessageId(event), words.value, at), id);
      }
    case StepStarted(_, _, _, _, _, _, _) => StepAside(rows, e, id);
    case Edited(message, edit, at) => EditAside(rows, message, edit, at, id);
    case Ignored =>
  }

  lemma EditAside(rows: Rows, m: string, edit: Edit, at: int, id: string)
    requires m != id
    ensures RowAt(EditAssistant(rows, m, EditRow(edit, at)), id) == RowAt(rows, id)
  {
    hide EditHead, EditContent;
    var i := IndexOf(rows, m);
    if i >= 0 && rows[i].Assistant? {
      AtUpdate(rows, i, EditRow(edit, at)(rows[i]), id);
    }
  }

  lemma UpsertAside(rows: Rows, row: Row, id: string)
    requires row.id != id
    ensures RowAt(Upsert(rows, row), id) == RowAt(rows, id)
  {
    var i := IndexOf(rows, row.id);
    if i < 0 {
      AtAppend(rows, row, id);
    } else {
      AtUpdate(rows, i, row, id);
    }
  }

  lemma DeliverAside(rows: Rows, inbox: string, at: int, id: string)
    requires inbox != id
    ensures RowAt(Deliver(rows, inbox, at), id) == RowAt(rows, id)
  {
    var i := IndexOf(rows, inbox);
    if i >= 0 && rows[i].Input? {
      AtRemove(rows, i, id);
      AtAppend(Remove(rows, i), Dated(rows[i], at), id);
    }
  }

  lemma CloseAside(rows: Rows, at: int, id: string)
    ensures Stays(RowAt(rows, id), RowAt(CloseActive(rows, at), id))
    ensures IndexOf(CloseActive(rows, at), id) == IndexOf(rows, id)
  {
    hide ActiveIndex;
    var i := ActiveIndex(rows);
    if i >= 0 {
      SameIds(rows, CloseActive(rows, at), id);
      AtUpdate(rows, i, Shut(rows[i], at), id);
    }
  }

  lemma StepAside(rows: Rows, e: Event, id: string)
    requires e.StepStarted? && e.message != id
    ensures Stays(RowAt(rows, id), RowAt(StepStart(rows, e), id))
  {
    hide IndexOf, ActiveIndex;
    if Reopens(rows, e) {
      AtUpdate(rows, IndexOf(rows, e.message), Reopen(rows[IndexOf(rows, e.message)], e), id);
    } else {
      CloseAside(rows, e.at, id);
      AtAppend(CloseActive(rows, e.at), NewStep(e), id);
    }
  }

  lemma {:induction false} FoldSplit(rows: Rows, xs: seq<Event>, ys: seq<Event>)
    ensures Fold(rows, xs + ys) == Fold(Fold(rows, xs), ys)
    decreases |ys|
  {
    hide Apply;
    if ys == [] {
      assert xs + ys == xs;
    } else {
      FoldSplit(rows, xs, ys[..|ys| - 1]);
      assert (xs + ys)[..|xs + ys| - 1] == xs + ys[..|ys| - 1];
    }
  }

  lemma {:induction false} UnnamedRun(rows: Rows, es: seq<Event>, id: string)
    requires forall e :: e in es ==> Named(e) != Some(id)
    requires RowAt(rows, id).Some? && !RowAt(rows, id).value.Assistant?
    ensures RowAt(Fold(rows, es), id) == RowAt(rows, id)
  {
    hide Apply, RowAt;
    if es != [] {
      var n := |es| - 1;
      UnnamedRun(rows, es[..n], id);
      UnnamedStays(Fold(rows, es[..n]), es[n], id);
    }
  }

  lemma EnqueuedAt(rows: Rows, inbox: string, item: Item, at: int)
    requires !item.OtherItem?
    ensures RowAt(Apply(rows, Enqueued(inbox, item, at)), inbox) == Some(InputRow(inbox, item, at))
  {
    var i := IndexOf(rows, inbox);
    if i < 0 {
      AtAppend(rows, InputRow(inbox, item, at), inbox);
    } else {
      AtUpdate(rows, i, InputRow(inbox, item, at), inbox);
    }
  }

  lemma DeliveredAt(rows: Rows, inbox: string, at: int)
    requires RowAt(rows, inbox).Some? && RowAt(rows, inbox).value.Input?
    ensures var t, row := Apply(rows, Delivered(inbox, at)), RowAt(rows, inbox).value;
            && RowAt(t, inbox) == Some(Input(inbox, row.kind, row.text, row.extra, at))
            && t != [] && t[|t| - 1] == RowAt(t, inbox).value
  {
    var i := IndexOf(rows, inbox);
    AtAppend(Remove(rows, i), Dated(rows[i], at), inbox);
  }

  /** The life of an input: from its place in the inbox on it is there with its time in
      the inbox, and from its delivery on, which puts it last, with that of the delivery. */
  lemma InputLife(rows: Rows, inbox: string, item: Item, at: int, waits: seq<Event>, delivered: int, after: seq<Event>)
    requires !item.OtherItem?
    requires forall e :: e in waits || e in after ==> Named(e) != Some(inbox)
    ensures var w := Fold(Apply(rows, Enqueued(inbox, item, at)), waits);
            var d := Apply(w, Delivered(inbox, delivered));
            && RowAt(w, inbox) == Some(InputRow(inbox, item, at))
            && d != [] && d[|d| - 1] == InputRow(inbox, item, delivered)
            && RowAt(Fold(d, after), inbox) == Some(InputRow(inbox, item, delivered))
  {
    hide Apply, RowAt;
    EnqueuedAt(rows, inbox, item, at);
    UnnamedRun(Apply(rows, Enqueued(inbox, item, at)), waits, inbox);
    var w := Fold(Apply(rows, Enqueued(inbox, item, at)), waits);
    DeliveredAt(w, inbox, delivered);
    UnnamedRun(Apply(w, Delivered(inbox, delivered)), after, inbox);
  }

  // ---- A part that streams ----

  /** The last item of the part, if any. */
  function LastItem(content: seq<Content>, part: Part): Option<Content> {
    if content == [] then None
    else if Picks(part, content[|content| - 1]) then Some(content[|content| - 1])
    else LastItem(content[..|content| - 1], part)
  }

  function ItemOf(rows: Rows, m: string, part: Part): Option<Content> {
    if RowAt(rows, m).Some? && RowAt(rows, m).value.Assistant? then LastItem(RowAt(rows, m).value.content, part) else None
  }

  predicate Shows(rows: Rows, m: string) { RowAt(rows, m).Some? && RowAt(rows, m).value.Assistant? }

  lemma {:induction false} LastItemEdited(content: seq<Content>, part: Part, other: Part, f: Content -> Content)
    requires forall c :: !(Picks(part, c) && Picks(other, c))
    requires forall c :: Picks(other, c) ==> !Picks(part, f(c))
    ensures LastItem(EditLast(content, other, f), part) == LastItem(content, part)
  {
    hide Picks;
    if content != [] {
      var n := |content| - 1;
      var after := EditLast(content, other, f);
      LastItemEdited(content[..n], part, other, f);
      if Picks(other, content[n]) {
        assert after[..n] == content[..n];
      } else {
        assert after[..n] == EditLast(content[..n], other, f);
      }
    }
  }

  lemma {:induction false} LastItemChanged(content: seq<Content>, part: Part, f: Content -> Content)
    requires LastItem(content, part).Some? && Picks(part, f(LastItem(content, part).value))
    ensures LastItem(EditLast(content, part, f), part) == Some(f(LastItem(content, part).value))
  {
    hide Picks;
    var n := |content| - 1;
    var after := EditLast(content, part, f);
    if !Picks(part, content[n]) {
      LastItemChanged(content[..n], part, f);
      assert after[..n] == EditLast(content[..n], part, f);
    }
  }

  lemma EditApartItem(content: seq<Content>, m: string, part: Part, edit: Edit, at: int)
    requires !Concerns(m, part, Edited(m, edit, at))
    ensures LastItem(EditContent(content, edit, at), part) == LastItem(content, part)
  {
    hide Change, EditLast;
    if PartOf(edit).Some? {
      hide Concerns, PartOf;
      ApartOf(m, part, edit, at);
      ChangeStaysApart(part, edit, at);
      LastItemEdited(content, part, PartOf(edit).value, Change(edit, at));
    } else if NewPart(edit, at) == [] {
      assert content + [] == content;
    } else {
      var more := NewPart(edit, at)[0];
      assert NewPart(edit, at) == [more];
      assert (content + [more])[..|content|] == content;
    }
  }

  lemma ApartOf(m: string, part: Part, edit: Edit, at: int)
    requires !Concerns(m, part, Edited(m, edit, at))
    ensures PartOf(edit) != Some(part)
  {
  }

  /** What is not about a part leaves its last item as it is, for as long as the message
      is shown; and a message that is not does not come back under its id. */
  lemma ApartKeeps(rows: Rows, m: string, part: Part, e: Event)
    requires !Concerns(m, part, e) && RowAt(rows, m).Some?
    ensures var t := Apply(rows, e);
            RowAt(t, m).Some? && (Shows(t, m) ==> Shows(rows, m) && ItemOf(t, m, part) == ItemOf(rows, m, part))
  {
    hide LastItem;
    if Named(e) != Some(m) {
      hide Apply, RowAt, Concerns, Named;
      UnnamedStays(rows, e, m);
    } else {
      NamedKeeps(rows, m, part, e);
    }
  }

  lemma NamedKeeps(rows: Rows, m: string, part: Part, e: Event)
    requires !Concerns(m, part, e) && RowAt(rows, m).Some? && Named(e) == Some(m)
    ensures var t := Apply(rows, e);
            RowAt(t, m).Some? && (Shows(t, m) ==> Shows(rows, m) && ItemOf(t, m, part) == ItemOf(rows, m, part))
  {
    hide LastItem, IndexOf, ActiveIndex, EditContent, EditHead;
    var i := IndexOf(rows, m);
    match e
    case Enqueued(_, item, at) =>
      if !item.OtherItem? {
        AtUpdate(rows, i, InputRow(m, item, at), m);
      }
    case Delivered(_, at) =>
      if rows[i].Input? {
        AtAppend(Remove(rows, i), Dated(rows[i], at), m);
      }
    case StepStarted(_, _, _, _, _, _, _) =>
      if Reopens(rows, e) {
        AtUpdate(rows, i, Reopen(rows[i], e), m);
      } else {
        CloseAside(rows, e.at, m);
      }
    case Edited(_, edit, at) =>
      if rows[i].Assistant? {
        AtUpdate(rows, i, EditRow(edit, at)(rows[i]), m);
        EditApartItem(rows[i].content, m, part, edit, at);
      }
    case _ =>
  }

  /** An edit of a part changes its last item, and that stays the last. */
  lemma EditsItem(rows: Rows, m: string, part: Part, edit: Edit, at: int)
    requires PartOf(edit) == Some(part) && !edit.ReasoningEnded? && ItemOf(rows, m, part).Some?
    ensures var t := Apply(rows, Edited(m, edit, at));
            && Shows(t, m) && ItemOf(t, m, part).Some?
            && Fits(edit, ItemOf(rows, m, part).value)
            && Becomes(edit, at, ItemOf(rows, m, part).value, ItemOf(t, m, part).value)
  {
    hide LastItem, IndexOf, Change, Becomes, EditHead, EditLast;
    var i, a := IndexOf(rows, m), ItemOf(rows, m, part).value;
    AtUpdate(rows, i, EditRow(edit, at)(rows[i]), m);
    LastItemPicked(rows[i].content, part);
    FitsIsPicks(edit, a);
    ChangeBecomes(edit, at, a);
    ChangeStays(part, edit, at, a);
    LastItemChanged(rows[i].content, part, Change(edit, at));
  }

  lemma {:induction false} LastItemPicked(content: seq<Content>, part: Part)
    requires LastItem(content, part).Some?
    ensures Picks(part, LastItem(content, part).value)
  {
    if !Picks(part, content[|content| - 1]) {
      LastItemPicked(content[..|content| - 1], part);
    }
  }

  lemma ChangeStays(part: Part, edit: Edit, at: int, c: Content)
    requires PartOf(edit) == Some(part) && !edit.ReasoningEnded? && Picks(part, c)
    ensures Picks(part, Change(edit, at)(c))
  {
  }

  /** The text an item has streamed. */
  function Words(c: Content): string {
    match c
    case Text(text) => text
    case Reasoning(text, _, _, _) => text
    case Tool(_, _, _, _, _, _, _, state) => if state.Streaming? then state.text else ""
  }

  predicate Streams(part: Part, c: Content) {
    match part
    case TextPart => c.Text?
    case ReasoningPart => c.Reasoning? && c.completed.None?
    case ToolPart(id) => c.Tool? && c.id == id && c.state.Streaming?
  }

  lemma LastItemAppended(content: seq<Content>, part: Part, more: Content)
    requires Picks(part, more)
    ensures LastItem(content + [more], part) == Some(more)
  {
  }

  lemma NewPartStreams(m: string, part: Part, start: Event)
    requires Starts(m, part, start)
    ensures var more := NewPart(start.edit, start.at);
            && PartOf(start.edit).None? && |more| == 1
            && Picks(part, more[0]) && Streams(part, more[0]) && Words(more[0]) == ""
  {
  }

  lemma PartStarts(rows: Rows, m: string, part: Part, start: Event)
    requires Shows(rows, m) && Starts(m, part, start)
    ensures var t := Apply(rows, start);
            && Shows(t, m) && ItemOf(t, m, part).Some?
            && Streams(part, ItemOf(t, m, part).value) && Words(ItemOf(t, m, part).value) == ""
  {
    hide IndexOf, EditHead, LastItem, NewPart, Picks, Streams, Words;
    var i := IndexOf(rows, m);
    AtUpdate(rows, i, EditRow(start.edit, start.at)(rows[i]), m);
    NewPartStreams(m, part, start);
    var more := NewPart(start.edit, start.at);
    assert more == [more[0]];
    LastItemAppended(rows[i].content, part, more[0]);
  }

  lemma DeltaGrows(rows: Rows, m: string, part: Part, e: Event)
    requires IsDelta(m, part, e) && ItemOf(rows, m, part).Some? && Streams(part, ItemOf(rows, m, part).value)
    ensures var t := Apply(rows, e);
            && Shows(t, m) && ItemOf(t, m, part).Some? && Streams(part, ItemOf(t, m, part).value)
            && Words(ItemOf(t, m, part).value) == Words(ItemOf(rows, m, part).value) + e.edit.delta
  {
    hide Apply, ItemOf, Shows;
    EditsItem(rows, m, part, e.edit, e.at);
  }

  lemma ItemShows(rows: Rows, m: string, part: Part)
    requires ItemOf(rows, m, part).Some?
    ensures Shows(rows, m) && RowAt(rows, m).Some?
  {
  }

  /** A part that has started and since got only deltas, whatever else went on, says what
      they join up to, for as long as its message is shown. */
  lemma {:induction false} PartSaysItsDeltas(rows: Rows, m: string, part: Part, start: Event, es: seq<Event>)
    requires Shows(rows, m) && Starts(m, part, start)
    requires forall e :: e in es ==> IsDelta(m, part, e) || !Concerns(m, part, e)
    ensures var t := Fold(Apply(rows, start), es);
            && RowAt(t, m).Some?
            && (Shows(t, m) ==>
                  && ItemOf(t, m, part).Some? && Streams(part, ItemOf(t, m, part).value)
                  && Words(ItemOf(t, m, part).value) == Joined(m, part, es))
    decreases |es|
  {
    hide Apply, Concerns, Streams, Words, ItemOf, RowAt, IsDelta, Shows;
    if es == [] {
      PartStarts(rows, m, part, start);
      ItemShows(Apply(rows, start), m, part);
    } else {
      var n := |es| - 1;
      PartSaysItsDeltas(rows, m, part, start, es[..n]);
      var t := Fold(Apply(rows, start), es[..n]);
      assert es[n] in es;
      if IsDelta(m, part, es[n]) {
        DeltaOnShown(t, m, part, es[n]);
      } else {
        ApartKeeps(t, m, part, es[n]);
      }
    }
  }

  /** A delta finds the part of a message that is shown, and no other message. */
  lemma DeltaOnShown(rows: Rows, m: string, part: Part, e: Event)
    requires IsDelta(m, part, e) && RowAt(rows, m).Some?
    requires Shows(rows, m) ==> ItemOf(rows, m, part).Some? && Streams(part, ItemOf(rows, m, part).value)
    ensures var t := Apply(rows, e);
            && RowAt(t, m).Some?
            && (Shows(t, m) ==>
                  && Shows(rows, m) && ItemOf(t, m, part).Some? && Streams(part, ItemOf(t, m, part).value)
                  && Words(ItemOf(t, m, part).value) == Words(ItemOf(rows, m, part).value) + e.edit.delta)
  {
    hide ItemOf, Streams, Words;
    if Shows(rows, m) {
      DeltaGrows(rows, m, part, e);
    }
  }

  // ---- A tool call from its start to its end ----

  /** What the call has come to: still streaming its input, or called at `ran`. */
  ghost predicate Called(c: Content, name: string, started: int, ran: int, input: Blob, executed: bool, native: Option<Native>) {
    && c.Tool? && c.name == name && c.started == started && c.completed.None?
    && c.ran == Some(ran) && c.executed == Some(executed) && c.native == native
    && c.state.Running? && c.state.input == input
  }

  ghost predicate Waiting(c: Content, name: string, started: int) {
    && c.Tool? && c.name == name && c.started == started && c.completed.None?
    && c.ran.None? && c.executed.None? && c.native.None? && c.state.Streaming?
  }

  predicate IsProgress(m: string, id: string, e: Event) {
    e.Edited? && e.message == m && e.edit.ToolProgress? && e.edit.tool == id
  }

  lemma ToolStartsWaiting(rows: Rows, m: string, id: string, name: string, at: int)
    requires Shows(rows, m)
    ensures var t := Apply(rows, Edited(m, ToolStarted(id, name), at));
            Shows(t, m) && ItemOf(t, m, ToolPart(id)).Some? && Waiting(ItemOf(t, m, ToolPart(id)).value, name, at)
  {
    hide IndexOf, EditHead;
    var i := IndexOf(rows, m);
    AtUpdate(rows, i, EditRow(ToolStarted(id, name), at)(rows[i]), m);
    var more := Tool(id, name, None, None, at, None, None, Streaming(""));
    assert (rows[i].content + [more])[..|rows[i].content|] == rows[i].content;
  }

  lemma {:induction false} Waits(rows: Rows, m: string, id: string, name: string, started: int, es: seq<Event>)
    requires RowAt(rows, m).Some?
    requires Shows(rows, m) ==> ItemOf(rows, m, ToolPart(id)).Some? && Waiting(ItemOf(rows, m, ToolPart(id)).value, name, started)
    requires forall e :: e in es ==> IsDelta(m, ToolPart(id), e) || !Concerns(m, ToolPart(id), e)
    ensures var t := Fold(rows, es);
            && RowAt(t, m).Some?
            && (Shows(t, m) ==> ItemOf(t, m, ToolPart(id)).Some? && Waiting(ItemOf(t, m, ToolPart(id)).value, name, started))
  {
    hide Apply, Concerns, Waiting, ItemOf, RowAt, Shows;
    if es != [] {
      var n := |es| - 1;
      Waits(rows, m, id, name, started, es[..n]);
      WaitsOn(Fold(rows, es[..n]), m, id, name, started, es[n]);
    }
  }

  lemma WaitsOn(rows: Rows, m: string, id: string, name: string, started: int, e: Event)
    requires RowAt(rows, m).Some?
    requires Shows(rows, m) ==> ItemOf(rows, m, ToolPart(id)).Some? && Waiting(ItemOf(rows, m, ToolPart(id)).value, name, started)
    requires IsDelta(m, ToolPart(id), e) || !Concerns(m, ToolPart(id), e)
    ensures var t := Apply(rows, e);
            && RowAt(t, m).Some?
            && (Shows(t, m) ==> ItemOf(t, m, ToolPart(id)).Some? && Waiting(ItemOf(t, m, ToolPart(id)).value, name, started))
  {
    hide ItemOf;
    if !Concerns(m, ToolPart(id), e) {
      hide Apply, Waiting, RowAt, Shows;
      ApartKeeps(rows, m, ToolPart(id), e);
    } else if Shows(rows, m) {
      hide Apply, RowAt;
      EditsItem(rows, m, ToolPart(id), e.edit, e.at);
    }
  }

  lemma {:induction false} Runs(rows: Rows, m: string, id: string, name: string, started: int, ran: int, input: Blob,
                                executed: bool, native: Option<Native>, es: seq<Event>)
    requires RowAt(rows, m).Some?
    requires Shows(rows, m) ==>
               ItemOf(rows, m, ToolPart(id)).Some?
               && Called(ItemOf(rows, m, ToolPart(id)).value, name, started, ran, input, executed, native)
    requires forall e :: e in es ==> IsProgress(m, id, e) || !Concerns(m, ToolPart(id), e)
    ensures var t := Fold(rows, es);
            && RowAt(t, m).Some?
            && (Shows(t, m) ==>
                  ItemOf(t, m, ToolPart(id)).Some?
                  && Called(ItemOf(t, m, ToolPart(id)).value, name, started, ran, input, executed, native))
  {
    hide Apply, Concerns, Called, ItemOf, RowAt, Shows;
    if es != [] {
      var n := |es| - 1;
      Runs(rows, m, id, name, started, ran, input, executed, native, es[..n]);
      RunsOn(Fold(rows, es[..n]), m, id, name, started, ran, input, executed, native, es[n]);
    }
  }

  lemma RunsOn(rows: Rows, m: string, id: string, name: string, started: int, ran: int, input: Blob,
               executed: bool, native: Option<Native>, e: Event)
    requires RowAt(rows, m).Some?
    requires Shows(rows, m) ==>
               ItemOf(rows, m, ToolPart(id)).Some?
               && Called(ItemOf(rows, m, ToolPart(id)).value, name, started, ran, input, executed, native)
    requires IsProgress(m, id, e) || !Concerns(m, ToolPart(id), e)
    ensures var t := Apply(rows, e);
            && RowAt(t, m).Some?
            && (Shows(t, m) ==>
                  ItemOf(t, m, ToolPart(id)).Some?
                  && Called(ItemOf(t, m, ToolPart(id)).value, name, started, ran, input, executed, native))
  {
    hide ItemOf;
    if !Concerns(m, ToolPart(id), e) {
      hide Apply, Called, RowAt, Shows;
      ApartKeeps(rows, m, ToolPart(id), e);
    } else if Shows(rows, m) {
      hide Apply, RowAt;
      EditsItem(rows, m, ToolPart(id), e.edit, e.at);
    }
  }

  lemma {:induction false} ApartRun(rows: Rows, m: string, part: Part, es: seq<Event>)
    requires RowAt(rows, m).Some? && forall e :: e in es ==> !Concerns(m, part, e)
    ensures var t := Fold(rows, es);
            RowAt(t, m).Some? && (Shows(t, m) ==> Shows(rows, m) && ItemOf(t, m, part) == ItemOf(rows, m, part))
  {
    hide Apply, Concerns, ItemOf, RowAt, Shows;
    if es != [] {
      ApartRun(rows, m, part, es[..|es| - 1]);
      ApartKeeps(Fold(rows, es[..|es| - 1]), m, part, es[|es| - 1]);
    }
  }

  lemma ToolCalledNow(rows: Rows, m: string, id: string, name: string, started: int, call: Event)
    requires RowAt(rows, m).Some? && call.Edited? && call.message == m && call.edit.ToolCalled? && call.edit.tool == id
    requires Shows(rows, m) ==> ItemOf(rows, m, ToolPart(id)).Some? && Waiting(ItemOf(rows, m, ToolPart(id)).value, name, started)
    ensures var t := Apply(rows, call);
            && RowAt(t, m).Some?
            && (Shows(t, m) ==>
                  ItemOf(t, m, ToolPart(id)).Some?
                  && Called(ItemOf(t, m, ToolPart(id)).value, name, started, call.at, call.edit.input, call.edit.executed,
                            call.edit.more))
  {
    hide ItemOf;
    if Shows(rows, m) {
      hide Apply, RowAt;
      EditsItem(rows, m, ToolPart(id), call.edit, call.at);
    }
  }

  /** The call is over as the last event of it says. */
  ghost predicate Over(c: Content, name: string, started: int, call: Event, end: Event)
    requires call.Edited? && call.edit.ToolCalled? && end.Edited? && (end.edit.ToolSucceeded? || end.edit.ToolFailed?)
  {
    && c.Tool? && c.name == name && c.started == started && c.ran == Some(call.at) && c.completed == Some(end.at)
    && c.executed == Some(end.edit.executed || call.edit.executed)
    && Joins(call.edit.more, end.edit.more, c.native)
    && c.state == if end.edit.ToolSucceeded? then Completed(call.edit.input, end.edit.meta, end.edit.result)
                  else Errored(call.edit.input, end.edit.failure, end.edit.meta, end.edit.partial)
  }

  lemma ToolEndsNow(rows: Rows, m: string, id: string, name: string, started: int, call: Event, end: Event)
    requires call.Edited? && call.edit.ToolCalled? && end.Edited? && (end.edit.ToolSucceeded? || end.edit.ToolFailed?)
    requires RowAt(rows, m).Some? && end.message == m && end.edit.tool == id
    requires Shows(rows, m) ==>
               ItemOf(rows, m, ToolPart(id)).Some?
               && Called(ItemOf(rows, m, ToolPart(id)).value, name, started, call.at, call.edit.input, call.edit.executed,
                         call.edit.more)
    ensures var t := Apply(rows, end);
            && RowAt(t, m).Some?
            && (Shows(t, m) ==>
                  ItemOf(t, m, ToolPart(id)).Some? && Over(ItemOf(t, m, ToolPart(id)).value, name, started, call, end))
  {
    hide ItemOf;
    if Shows(rows, m) {
      hide Apply, RowAt;
      EditsItem(rows, m, ToolPart(id), end.edit, end.at);
    }
  }

  /** The life of a tool call: whatever went on beside it, after its start, the deltas of
      its input, its call, its progress and its end the item has the times of start, call
      and end, the input it was called with, and the result or the failure. */
  lemma ToolLife(rows: Rows, m: string, id: string, name: string, started: int, streams: seq<Event>, call: Event,
                 runs: seq<Event>, end: Event, after: seq<Event>)
    requires Shows(rows, m)
    requires forall e :: e in streams ==> IsDelta(m, ToolPart(id), e) || !Concerns(m, ToolPart(id), e)
    requires call.Edited? && call.message == m && call.edit.ToolCalled? && call.edit.tool == id
    requires forall e :: e in runs ==> IsProgress(m, id, e) || !Concerns(m, ToolPart(id), e)
    requires end.Edited? && end.message == m && (end.edit.ToolSucceeded? || end.edit.ToolFailed?) && end.edit.tool == id
    requires forall e :: e in after ==> !Concerns(m, ToolPart(id), e)
    ensures var begun := Fold(Apply(rows, Edited(m, ToolStarted(id, name), started)), streams);
            var t := Fold(Apply(Fold(Apply(begun, call), runs), end), after);
            Shows(t, m) ==>
              ItemOf(t, m, ToolPart(id)).Some? && Over(ItemOf(t, m, ToolPart(id)).value, name, started, call, end)
  {
    hide Apply, Concerns, Over, Called, Waiting, ItemOf, RowAt, IsDelta, IsProgress;
    ToolStartsWaiting(rows, m, id, name, started);
    var first := Apply(rows, Edited(m, ToolStarted(id, name), started));
    Waits(first, m, id, name, started, streams);
    var begun := Fold(first, streams);
    ToolCalledNow(begun, m, id, name, started, call);
    Runs(Apply(begun, call), m, id, name, started, call.at, call.edit.input, call.edit.executed, call.edit.more, runs);
    var ran := Fold(Apply(begun, call), runs);
    ToolEndsNow(ran, m, id, name, started, call, end);
    ApartRun(Apply(ran, end), m, ToolPart(id), after);
  }

  // ---- A step from its start to its end ----

  /** A step that has started at `started`, streams since `streamed` and is not done. */
  ghost predicate Steps(row: Row, e: Event, streamed: Option<int>)
    requires e.StepStarted?
  {
    && row.Assistant? && row.id == e.message
    && row.head.agent == e.agent && row.head.model == e.model
    && row.head.created == e.started && row.head.completed.None? && row.head.streamed == streamed
    && row.head.error.None?
  }

  /** A step that starts anew is a row of its own behind the others, empty; one that is
      tried again keeps its content and forgets how it ended. */
  lemma StepStartTells(rows: Rows, e: Event)
    requires e.StepStarted?
    ensures var t := Apply(rows, e);
            && (NoRow(rows, e.message) ==>
                  && t != [] && |t| == |rows| + 1 && Steps(t[|rows|], e, None) && t[|rows|].content == []
                  && t[|rows|].head.metadata == e.metadata && t[|rows|].head.retry.None?
                  && (t[|rows|].head.snapshot.Some? <==> e.snapshot.Some?)
                  && (e.snapshot.Some? ==> t[|rows|].head.snapshot.value == Snapshot(e.snapshot, None)))
            && (forall i: nat :: RowOf(rows, e.message, i) && rows[i].Assistant? ==>
                  && |t| == |rows| && t == rows[i := t[i]]
                  && Steps(t[i], e, None) && t[i].content == rows[i].content
                  && t[i].head.metadata == rows[i].head.metadata && t[i].head.retry.None? && t[i].head.finish.None?
                  && t[i].head.rawFinish.None? && t[i].head.native.None?
                  && t[i].head.cost == rows[i].head.cost && t[i].head.tokens == rows[i].head.tokens
                  && (e.snapshot.None? ==> t[i].head.snapshot == rows[i].head.snapshot)
                  && (e.snapshot.Some? ==>
                        && t[i].head.snapshot.Some? && t[i].head.snapshot.value.start == e.snapshot
                        && t[i].head.snapshot.value.end ==
                             if rows[i].head.snapshot.Some? then rows[i].head.snapshot.value.end else None))
            && (forall i: nat :: RowOf(rows, e.message, i) && !rows[i].Assistant? ==> |t| == |rows|)
  {
    hide ActiveIndex;
    forall i: nat | RowOf(rows, e.message, i)
      ensures IndexOf(rows, e.message) == i
    {
      NamedIndex(rows, e.message, i);
    }
    CloseAside(rows, e.at, e.message);
  }

  /** The step before, when it is still open, is closed by one that starts anew, at that
      time, with its content as it was. */
  lemma StepCloses(rows: Rows, e: Event, i: nat)
    requires e.StepStarted? && NoRow(rows, e.message) && i < |rows|
    requires rows[i].Assistant? && (rows[i].head.completed == None || rows[i].head.completed == Some(0))
    requires forall j :: i < j < |rows| ==> !Open(rows[j])
    ensures var t := Apply(rows, e);
            && |t| == |rows| + 1 && t[..|rows|] == rows[i := t[i]]
            && t[i].Assistant? && t[i].id == rows[i].id && t[i].content == rows[i].content
            && t[i].head == rows[i].head.(retry := None, completed := Some(e.at))
  {
    var j := ActiveIndex(rows);
    assert j == i;
    CloseAside(rows, e.at, e.message);
  }

  /** When the step last began to stream. */
  function StreamedAt(m: string, es: seq<Event>): Option<int> {
    if es == [] then None
    else
      var last := es[|es| - 1];
      if last.Edited? && last.message == m && last.edit.Streamed? then Some(last.at) else StreamedAt(m, es[..|es| - 1])
  }

  /** It is not about the step's row, and closes none; or it edits the step while it is
      under way. */
  predicate DuringStep(m: string, e: Event) {
    if e.Edited? && e.message == m then !e.edit.StepEnded? && !e.edit.StepFailed?
    else Named(e) != Some(m) && !e.StepStarted?
  }

  lemma StepGoesOn(rows: Rows, start: Event, streamed: Option<int>, e: Event)
    requires start.StepStarted? && DuringStep(start.message, e)
    requires RowAt(rows, start.message).Some? && Steps(RowAt(rows, start.message).value, start, streamed)
    ensures var t := Apply(rows, e);
            && RowAt(t, start.message).Some?
            && Steps(RowAt(t, start.message).value, start,
                     if e.Edited? && e.message == start.message && e.edit.Streamed? then Some(e.at) else streamed)
  {
    var m := start.message;
    if e.Edited? && e.message == m {
      EditedStep(rows, m, e.edit, e.at);
    } else {
      hide Apply, RowAt;
      UnnamedStays(rows, e, m);
    }
  }

  lemma EditedStep(rows: Rows, m: string, edit: Edit, at: int)
    requires Shows(rows, m)
    ensures var t := Apply(rows, Edited(m, edit, at));
            && Shows(t, m) && RowAt(t, m).value.id == RowAt(rows, m).value.id
            && HeadBecomes(edit, at, RowAt(rows, m).value.head, RowAt(t, m).value.head)
  {
    hide IndexOf, EditContent, EditHead, HeadBecomes;
    var i := IndexOf(rows, m);
    AtUpdate(rows, i, EditRow(edit, at)(rows[i]), m);
    EditedHead(edit, at, rows[i].head);
  }

  lemma {:induction false} StepRuns(rows: Rows, start: Event, es: seq<Event>)
    requires start.StepStarted? && forall e :: e in es ==> DuringStep(start.message, e)
    requires RowAt(rows, start.message).Some? && Steps(RowAt(rows, start.message).value, start, None)
    ensures var t := Fold(rows, es);
            RowAt(t, start.message).Some?
            && Steps(RowAt(t, start.message).value, start, StreamedAt(start.message, es))
  {
    hide Apply, RowAt, Steps, DuringStep;
    if es != [] {
      var n := |es| - 1;
      StepRuns(rows, start, es[..n]);
      StepGoesOn(Fold(rows, es[..n]), start, StreamedAt(start.message, es[..n]), es[n]);
    }
  }

  /** The life of a step: from its start on its row has the start's time, agent and model
      and is open; its end, or its failure, closes it at that time. */
  lemma StepLife(rows: Rows, start: Event, es: seq<Event>, end: Event)
    requires start.StepStarted? && NoRow(rows, start.message)
    requires forall e :: e in es ==> DuringStep(start.message, e)
    requires end.Edited? && end.message == start.message && (end.edit.StepEnded? || end.edit.StepFailed?)
    ensures var m := start.message;
            var t := Fold(Apply(rows, start), es);
            && RowAt(t, m).Some? && Steps(RowAt(t, m).value, start, StreamedAt(m, es))
            && var u := RowAt(Apply(t, end), m);
               && u.Some? && u.value.Assistant? && u.value.head.created == start.started
               && u.value.head.streamed == StreamedAt(m, es) && u.value.head.completed == Some(end.at)
               && u.value.head.error == if end.edit.StepFailed? then Some(end.edit.error) else None
  {
    hide Apply, Steps, DuringStep, HeadBecomes, StreamedAt;
    var m := start.message;
    var first := Apply(rows, start);
    StartedAt(rows, start);
    StepRuns(first, start, es);
    var t := Fold(first, es);
    StepEnds(t, start, StreamedAt(m, es), end);
  }

  lemma StartedAt(rows: Rows, start: Event)
    requires start.StepStarted? && NoRow(rows, start.message)
    ensures var first := Apply(rows, start);
            RowAt(first, start.message).Some? && Steps(RowAt(first, start.message).value, start, None)
  {
    hide ActiveIndex;
    CloseAside(rows, start.at, start.message);
    AtAppend(CloseActive(rows, start.at), NewStep(start), start.message);
  }

  lemma StepEnds(rows: Rows, start: Event, streamed: Option<int>, end: Event)
    requires start.StepStarted? && end.Edited? && end.message == start.message
    requires end.edit.StepEnded? || end.edit.StepFailed?
    requires RowAt(rows, start.message).Some? && Steps(RowAt(rows, start.message).value, start, streamed)
    ensures var u := RowAt(Apply(rows, end), start.message);
            && u.Some? && u.value.Assistant? && u.value.head.created == start.started
            && u.value.head.streamed == streamed && u.value.head.completed == Some(end.at)
            && u.value.head.error == if end.edit.StepFailed? then Some(end.edit.error) else None
  {
    EditedStep(rows, start.message, end.edit, end.at);
  }
}
