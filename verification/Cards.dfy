/** Workflow cards (workflow_card.rs): start results are linked to the progress of the run or
    worker they name, although that progress may come first. */
module WorkflowCard {
  import opened Contracts

  datatype CardStatus = Running | Completed | Failed

  datatype StartKind = Workflow | Worker

  datatype Progress = Progress(run: string, line: string, outcome: Option<string>)

  datatype Update =
    | ToolProgress(id: string, text: string, status: Option<CardStatus>)
    | ToolFinished(id: string, succeeded: bool, text: string)
    | Message(text: string)

  datatype Card = Card(id: string, text: string)

  datatype Run = Run(card: Option<Card>, pending: seq<Progress>)

  type Note = (string, string)

  // ------------------------------------------------------------------ text

  function Append(text: string, line: string): string {
    if line == "" then text else text + "\n" + line
  }

  /** The start result, then every line, in order. */
  function TextOf(content: string, lines: seq<Progress>): string {
    if lines == [] then content
    else Append(TextOf(content, lines[..|lines| - 1]), lines[|lines| - 1].line)
  }

  function StatusOf(p: Progress): CardStatus {
    if p.outcome.None? then Running else if p.outcome.value == "completed" then Completed else Failed
  }

  /** What a card shows after its result and `lines`. */
  function ShownFor(result: ToolResultItem, lines: seq<Progress>): Update {
    ToolProgress(result.callId, TextOf(result.content, lines), Some(if lines == [] then Running else StatusOf(lines[|lines| - 1])))
  }

  predicate IsWhitespace(c: char) {
    '\U{9}' <= c <= '\U{d}' || c == ' ' || c == '\U{85}' || c == '\U{a0}' || c == '\U{1680}'
      || '\U{2000}' <= c <= '\U{200a}'
    || c == '\U{2028}' || c == '\U{2029}' || c == '\U{202f}' || c == '\U{205f}' || c == '\U{3000}'
  }

  function UpTo(s: string, stops: char -> bool): string {
    if s == "" || stops(s[0]) then "" else [s[0]] + UpTo(s[1..], stops)
  }

  function Behind(s: string, skips: char -> bool): string {
    if s == "" || !skips(s[0]) then s else Behind(s[1..], skips)
  }

  function AfterPrefix(s: string, prefix: string): Option<string> {
    if prefix <= s then Some(s[|prefix|..]) else None
  }

  /** The run an accepted start result names. */
  function StartedRun(kind: Option<StartKind>, result: ToolResultItem): Option<string> {
    var rest := AfterPrefix(result.content, "Started workflow ");
    if kind != Some(Workflow) || rest.None? || !result.status.Okay? then None
    else
      var id := UpTo(rest.value, c => c == ' ' || c == ',' || c == '.');
      if id == "" then None else Some(id)
  }

  /** The worker an accepted start result names. */
  function StartedWorker(kind: Option<StartKind>, result: ToolResultItem): Option<string> {
    var rest := AfterPrefix(result.content, "Started worker ");
    if kind != Some(Worker) || rest.None? || !result.status.Okay? then None
    else
      var words := Behind(rest.value, c => IsWhitespace(c));
      if words == "" then None else Some(UpTo(words, c => IsWhitespace(c)))
  }

  // ------------------------------------------------------------------ what happened

  datatype Event =
    | Started(id: string, kind: Option<StartKind>)
    | Progressed(progress: Progress)
    | WorkerEnded(worker: string, note: string)
    | Finished(result: ToolResultItem)
    | TurnEnded

  /** The open calls. */
  function OpenAfter(calls: map<string, Option<StartKind>>, e: Event): map<string, Option<StartKind>> {
    match e
    case Started(id, kind) => calls[id := kind]
    case Finished(result) => calls - {result.callId}
    case TurnEnded => map[]
    case _ => calls
  }

  function OpenCalls(log: seq<Event>): map<string, Option<StartKind>> {
    if log == [] then map[] else OpenAfter(OpenCalls(log[..|log| - 1]), log[|log| - 1])
  }

  function KindIn(calls: map<string, Option<StartKind>>, id: string): Option<StartKind> {
    if id in calls then calls[id] else None
  }

  /** All progress of one run, in order. */
  function Lines(log: seq<Event>, run: string): seq<Progress> {
    if log == [] then []
    else
      Lines(log[..|log| - 1], run)
      + if log[|log| - 1].Progressed? && log[|log| - 1].progress.run == run then [log[|log| - 1].progress] else []
  }

  /** How a run stands to the start results: none named it yet, exactly one did and its call id
      was not used again, or neither. */
  datatype Link = Unlinked | Linked(result: ToolResultItem) | Tangled

  function LinkAfter(link: Link, calls: map<string, Option<StartKind>>, e: Event, run: string): Link {
    if e.Started? then
      if link.Linked? && link.result.callId == e.id then Tangled else link
    else if e.Finished? && StartedRun(KindIn(calls, e.result.callId), e.result) == Some(run) then
      if link.Unlinked? then Linked(e.result) else Tangled
    else link
  }

  function LinkOf(log: seq<Event>, run: string): Link {
    if log == [] then Unlinked
    else LinkAfter(LinkOf(log[..|log| - 1], run), OpenCalls(log[..|log| - 1]), log[|log| - 1], run)
  }

  function Notes(log: seq<Event>): seq<Note> {
    if log == [] then []
    else
      Notes(log[..|log| - 1])
      + if log[|log| - 1].WorkerEnded? then [(log[|log| - 1].worker, log[|log| - 1].note)] else []
  }

  lemma LogGrows(log: seq<Event>, e: Event, run: string)
    ensures OpenCalls(log + [e]) == OpenAfter(OpenCalls(log), e)
    ensures Lines(log + [e], run) ==
              if e.Progressed? && e.progress.run == run then Lines(log, run) + [e.progress] else Lines(log, run)
    ensures Notes(log + [e]) == if e.WorkerEnded? then Notes(log) + [(e.worker, e.note)] else Notes(log)
    ensures LinkOf(log + [e], run) == LinkAfter(LinkOf(log, run), OpenCalls(log), e, run)
  {
    hide OpenAfter, LinkAfter;
    assert (log + [e])[..|log| + 1 - 1] == log;
  }

  // ------------------------------------------------------------------ independence

  function WithoutProgress(log: seq<Event>): seq<Event> {
    if log == [] then []
    else WithoutProgress(log[..|log| - 1]) + if log[|log| - 1].Progressed? then [] else [log[|log| - 1]]
  }

  /** Progress has no say in which run a result is linked to. */
  lemma {:induction false} LinkIgnoresProgress(log: seq<Event>, run: string)
    ensures LinkOf(log, run) == LinkOf(WithoutProgress(log), run)
    ensures OpenCalls(log) == OpenCalls(WithoutProgress(log))
  {
    hide StartedRun;
    if log != [] {
      var m := |log| - 1;
      LinkIgnoresProgress(log[..m], run);
      assert log == log[..m] + [log[m]];
      hide LinkAfter, OpenAfter;
      if !log[m].Progressed? {
        LogGrows(log[..m], log[m], run);
        LogGrows(WithoutProgress(log[..m]), log[m], run);
      } else {
        assert WithoutProgress(log[..m]) + [] == WithoutProgress(log[..m]);
        LinkAfterProgress(LinkOf(log[..m], run), OpenCalls(log[..m]), log[m], run);
      }
    }
  }

  lemma LinkAfterProgress(link: Link, calls: map<string, Option<StartKind>>, e: Event, run: string)
    requires e.Progressed?
    ensures LinkAfter(link, calls, e, run) == link && OpenAfter(calls, e) == calls
  {
  }

  /** What a run's card says depends on its lines and on the calls, not on how they interleave:
      a start result after all the progress shows what one before it does. */
  lemma {:induction false} CardsIgnoreInterleaving(a: seq<Event>, b: seq<Event>, run: string)
    requires WithoutProgress(a) == WithoutProgress(b) && Lines(a, run) == Lines(b, run)
    ensures LinkOf(a, run) == LinkOf(b, run)
    ensures LinkOf(a, run).Linked? ==>
              ShownFor(LinkOf(a, run).result, Lines(a, run)) == ShownFor(LinkOf(b, run).result, Lines(b, run))
  {
    LinkIgnoresProgress(a, run);
    LinkIgnoresProgress(b, run);
  }

  /** A run's card, by how the run is linked. */
  ghost predicate Fits(run: Run, link: Link, lines: seq<Progress>) {
    && (link.Unlinked? ==> run == Run(None, lines))
    && (link.Linked? ==> run == Run(Some(Card(link.result.callId, TextOf(link.result.content, lines))), []))
  }

  function EntryOf(runs: map<string, Run>, run: string): Run {
    if run in runs then runs[run] else Run(None, [])
  }

  ghost predicate RunsFit(runs: map<string, Run>, log: seq<Event>) {
    forall run :: Fits(EntryOf(runs, run), LinkOf(log, run), Lines(log, run))
  }

  /** Worker notes, turn ends and results that start no run leave the runs alone. */
  lemma RunsKept(runs: map<string, Run>, log: seq<Event>, e: Event)
    requires RunsFit(runs, log)
    requires e.WorkerEnded? || e.TurnEnded?
              || (e.Finished? && StartedRun(KindIn(OpenCalls(log), e.result.callId), e.result).None?)
    ensures RunsFit(runs, log + [e])
  {
    hide Fits, LinkOf, Lines, OpenCalls, StartedRun;
    forall run ensures Fits(EntryOf(runs, run), LinkOf(log + [e], run), Lines(log + [e], run)) {
      LogGrows(log, e, run);
      assert Fits(EntryOf(runs, run), LinkOf(log, run), Lines(log, run));
    }
  }

  /** A call id used again takes its card from the run. */
  lemma RunsUnlinked(runs: map<string, Run>, after: map<string, Run>, log: seq<Event>, id: string,
                     kind: Option<StartKind>)
    requires RunsFit(runs, log)
    requires forall run ::
               EntryOf(after, run) == (var r := EntryOf(runs, run); if r.card.Some? && r.card.value.id == id then Run(None, r.pending) else r)
    ensures RunsFit(after, log + [Started(id, kind)])
  {
    hide LinkOf, Lines, OpenCalls, StartedRun, EntryOf;
    forall run
      ensures Fits(EntryOf(after, run), LinkOf(log + [Started(id, kind)], run), Lines(log + [Started(id, kind)], run))
    {
      LogGrows(log, Started(id, kind), run);
      assert Fits(EntryOf(runs, run), LinkOf(log, run), Lines(log, run));
    }
  }

  lemma RunsProgress(runs: map<string, Run>, log: seq<Event>, p: Progress)
    requires RunsFit(runs, log)
    ensures var entry := EntryOf(runs, p.run);
            var next := if entry.card.Some? then entry.(card := Some(entry.card.value.(text := Append(entry.card.value.text, p.line))))
                        else entry.(pending := entry.pending + [p]);
            RunsFit(runs[p.run := next], log + [Progressed(p)])
  {
    hide LinkOf, Lines, OpenCalls, StartedRun, TextOf;
    var e := Progressed(p);
    var entry := EntryOf(runs, p.run);
    var next := if entry.card.Some? then entry.(card := Some(entry.card.value.(text := Append(entry.card.value.text, p.line))))
                else entry.(pending := entry.pending + [p]);
    var link := LinkOf(log, p.run);
    if link.Linked? { TextGrows(link.result.content, Lines(log, p.run), p); }
    forall run ensures Fits(EntryOf(runs[p.run := next], run), LinkOf(log + [e], run), Lines(log + [e], run)) {
      LogGrows(log, e, run);
      assert Fits(EntryOf(runs, run), LinkOf(log, run), Lines(log, run));
    }
  }

  lemma RunsLinked(runs: map<string, Run>, log: seq<Event>, run: string, result: ToolResultItem)
    requires RunsFit(runs, log) && StartedRun(KindIn(OpenCalls(log), result.callId), result) == Some(run)
    ensures var text := TextOf(result.content, EntryOf(runs, run).pending);
            RunsFit(runs[run := Run(Some(Card(result.callId, text)), [])], log + [Finished(result)])
    ensures LinkOf(log, run).Unlinked? ==>
              && EntryOf(runs, run).pending == Lines(log, run) == Lines(log + [Finished(result)], run)
              && LinkOf(log + [Finished(result)], run) == Linked(result)
  {
    hide LinkOf, Lines, OpenCalls, StartedRun, TextOf;
    var e := Finished(result);
    var after := runs[run := Run(Some(Card(result.callId, TextOf(result.content, EntryOf(runs, run).pending))), [])];
    assert Fits(EntryOf(runs, run), LinkOf(log, run), Lines(log, run));
    forall other ensures Fits(EntryOf(after, other), LinkOf(log + [e], other), Lines(log + [e], other)) {
      LogGrows(log, e, other);
      assert Fits(EntryOf(runs, other), LinkOf(log, other), Lines(log, other));
    }
    LogGrows(log, e, run);
  }

  lemma FitsOne(runs: map<string, Run>, log: seq<Event>, run: string)
    requires RunsFit(runs, log)
    ensures Fits(EntryOf(runs, run), LinkOf(log, run), Lines(log, run))
  {
  }

  // ------------------------------------------------------------------ what was shown

  /** The updates that tell of worker notes. */
  function Noted(updates: seq<Update>): seq<Update> {
    if updates == [] then []
    else
      var last := updates[|updates| - 1];
      Noted(updates[..|updates| - 1])
        + if last.Message? || (last.ToolProgress? && last.status.None?) then [last] else []
  }

  /** The note is the message, or the last line of the card. */
  ghost predicate Tells(update: Update, note: Note) {
    || (update.Message? && update.text == note.1)
    || (update.ToolProgress? && exists before :: update.text == Append(before, note.1))
  }

  /** Among the updates exactly these notes are told, each once and in this order. */
  ghost predicate ShowsNotes(updates: seq<Update>, notes: seq<Note>) {
    |Noted(updates)| == |notes| && forall k :: 0 <= k < |notes| ==> Tells(Noted(updates)[k], notes[k])
  }

  lemma {:induction false} NotedConcat(a: seq<Update>, b: seq<Update>)
    ensures Noted(a + b) == Noted(a) + Noted(b)
  {
    if b == [] {
      assert a + b == a;
    } else {
      var m := |b| - 1;
      NotedConcat(a, b[..m]);
      assert (a + b)[..|a + b| - 1] == a + b[..m];
    }
  }

  lemma ShowsConcat(a: seq<Update>, m: seq<Note>, b: seq<Update>, n: seq<Note>)
    requires ShowsNotes(a, m) && ShowsNotes(b, n)
    ensures ShowsNotes(a + b, m + n)
  {
    hide Noted, Tells;
    NotedConcat(a, b);
  }

  lemma ShowsNothing(updates: seq<Update>)
    requires updates == [] || (|updates| == 1 && (updates[0].ToolFinished?
              || (updates[0].ToolProgress? && updates[0].status.Some?)))
    ensures ShowsNotes(updates, [])
  {
  }

  lemma TellsLast(card: Card, note: string, worker: string)
    requires exists before :: card.text == Append(before, note)
    ensures Tells(ToolProgress(card.id, card.text, None), (worker, note))
  {
    hide Append;
  }

  lemma TellsMessage(note: string, worker: string)
    ensures Tells(Message(note), (worker, note))
  {
  }

  lemma ShowsOne(update: Update, note: Note)
    requires Tells(update, note) && (update.ToolProgress? ==> update.status.None?)
    ensures ShowsNotes([update], [note])
  {
  }

  lemma {:induction false} MessagesShow(notes: seq<Note>)
    ensures ShowsNotes(Messages(notes), notes)
  {
    hide ShowsNotes;
    if notes == [] {
      ShowsNothing([]);
    } else {
      var m := |notes| - 1;
      MessagesShow(notes[..m]);
      ShowsOne(Message(notes[m].1), notes[m]);
      ShowsConcat(Messages(notes[..m]), notes[..m], [Message(notes[m].1)], [notes[m]]);
      assert notes == notes[..m] + [notes[m]] && Messages(notes) == Messages(notes[..m]) + [Message(notes[m].1)];
    }
  }

  lemma {:induction false} NoteUpdatesShow(id: string, content: string, notes: seq<Note>)
    ensures ShowsNotes(NoteUpdates(id, content, notes), notes)
  {
    hide ShowsNotes, Append;
    if notes == [] {
      ShowsNothing([]);
    } else {
      var m := |notes| - 1;
      var update := ToolProgress(id, WithNotes(content, notes), None);
      NoteUpdatesShow(id, content, notes[..m]);
      assert Tells(update, notes[m]);
      ShowsOne(update, notes[m]);
      ShowsConcat(NoteUpdates(id, content, notes[..m]), notes[..m], [update], [notes[m]]);
      assert notes == notes[..m] + [notes[m]];
    }
  }

  lemma {:induction false} RunUpdatesShow(result: ToolResultItem, pending: seq<Progress>)
    ensures ShowsNotes(RunUpdates(result, pending), [])
  {
    hide ShowsNotes, TextOf;
    if pending == [] {
      ShowsNothing(RunUpdates(result, []));
    } else {
      var m := |pending| - 1;
      RunUpdatesShow(result, pending[..m]);
      ShowsNothing([ShownFor(result, pending)]);
      var none: seq<Note> := [];
      ShowsConcat(RunUpdates(result, pending[..m]), none, [ShownFor(result, pending)], none);
      assert none + none == none;
      RunUpdatesGrow(result, pending);
    }
  }

  lemma RunUpdatesGrow(result: ToolResultItem, pending: seq<Progress>)
    requires pending != []
    ensures RunUpdates(result, pending) == RunUpdates(result, pending[..|pending| - 1]) + [ShownFor(result, pending)]
  {
    hide ShownFor;
    assert pending[..|pending|] == pending;
    assert forall n :: 0 <= n < |pending| ==> pending[..|pending| - 1][..n] == pending[..n];
  }

  predicate IsCard(update: Update, id: string) {
    update.ToolProgress? && update.id == id
  }

  /** What a card was last made to show. */
  function LastShown(updates: seq<Update>, id: string): Option<Update> {
    if updates == [] then None
    else if IsCard(updates[|updates| - 1], id) then Some(updates[|updates| - 1])
    else LastShown(updates[..|updates| - 1], id)
  }

  lemma {:induction false} LastShownConcat(a: seq<Update>, b: seq<Update>, id: string)
    ensures LastShown(a + b, id) == if LastShown(b, id).Some? then LastShown(b, id) else LastShown(a, id)
    ensures LastShown(b, id).None? <==> forall u :: u in b ==> !IsCard(u, id)
  {
    hide IsCard;
    if b == [] {
      assert a + b == a;
    } else {
      var m := |b| - 1;
      LastShownConcat(a, b[..m], id);
      assert (a + b)[..|a + b| - 1] == a + b[..m];
      assert b == b[..m] + [b[m]];
    }
  }

  /** Every linked run's card was last made to show its start result and all its lines. */
  ghost predicate CardsShown(shown: seq<Update>, log: seq<Event>) {
    forall run :: LinkOf(log, run).Linked? ==>
      LastShown(shown, LinkOf(log, run).result.callId) == Some(ShownFor(LinkOf(log, run).result, Lines(log, run)))
  }

  /** `more` does not touch the card of a run that stayed as it was, and shows any other in full. */
  ghost predicate Renews(more: seq<Update>, log: seq<Event>, e: Event, run: string) {
    var link, lines := LinkOf(log + [e], run), Lines(log + [e], run);
    link.Linked? ==>
      if LastShown(more, link.result.callId).None? then LinkOf(log, run) == link && Lines(log, run) == lines
      else LastShown(more, link.result.callId) == Some(ShownFor(link.result, lines))
  }

  lemma CardsRenewed(shown: seq<Update>, more: seq<Update>, log: seq<Event>, e: Event)
    requires CardsShown(shown, log) && forall run :: Renews(more, log, e, run)
    ensures CardsShown(shown + more, log + [e])
  {
    hide LinkOf, Lines, ShownFor, LastShown;
    forall run | LinkOf(log + [e], run).Linked?
      ensures LastShown(shown + more, LinkOf(log + [e], run).result.callId)
              == Some(ShownFor(LinkOf(log + [e], run).result, Lines(log + [e], run)))
    {
      assert Renews(more, log, e, run);
      LastShownConcat(shown, more, LinkOf(log + [e], run).result.callId);
    }
  }

  /** No two runs share a card, no worker has a run's, and no open call has one. */
  ghost predicate Apart(calls: map<string, Option<StartKind>>, runs: map<string, Run>, workers: map<string, Card>) {
    && (forall r :: r in runs && runs[r].card.Some? ==> runs[r].card.value.id !in calls)
    && (forall w :: w in workers ==> workers[w].id !in calls)
    && (forall r, w :: r in runs && runs[r].card.Some? && w in workers ==> runs[r].card.value.id != workers[w].id)
    && (forall r, s :: r in runs && s in runs && r != s && runs[r].card.Some? && runs[s].card.Some? ==>
                         runs[r].card.value.id != runs[s].card.value.id)
  }

  /** A call id used again loses its cards. */
  lemma ApartStarted(calls: map<string, Option<StartKind>>, runs: map<string, Run>, workers: map<string, Card>,
                     unlinked: map<string, Run>, kept: map<string, Card>, id: string, kind: Option<StartKind>)
    requires Apart(calls, runs, workers)
    requires forall r :: r in unlinked && unlinked[r].card.Some? ==>
              r in runs && unlinked[r] == runs[r] && runs[r].card.value.id != id
    requires forall w :: w in kept ==> w in workers && kept[w] == workers[w] && workers[w].id != id
    ensures Apart(calls[id := kind], unlinked, kept)
  {
  }

  /** A worker's card keeps its id, which no run's card has. */
  lemma ApartNoted(calls: map<string, Option<StartKind>>, runs: map<string, Run>, workers: map<string, Card>,
                   worker: string, text: string)
    requires Apart(calls, runs, workers) && worker in workers
    ensures Apart(calls, runs, workers[worker := workers[worker].(text := text)])
    ensures forall r :: r in runs && runs[r].card.Some? ==> runs[r].card.value.id != workers[worker].id
  {
  }

  lemma LinkedCard(runs: map<string, Run>, log: seq<Event>, run: string)
    requires RunsFit(runs, log) && LinkOf(log, run).Linked?
    ensures run in runs && runs[run].card.Some? && runs[run].card.value.id == LinkOf(log, run).result.callId
  {
    hide LinkOf, Lines, TextOf;
    FitsOne(runs, log, run);
  }

  /** Updates of no linked run's card, at an event that adds no line and links no run. */
  lemma CardsKept(shown: seq<Update>, more: seq<Update>, log: seq<Event>, e: Event)
    requires CardsShown(shown, log)
    requires !e.Progressed? && (e.Finished? ==> StartedRun(KindIn(OpenCalls(log), e.result.callId), e.result).None?)
    requires forall run :: LinkOf(log, run).Linked? ==> LastShown(more, LinkOf(log, run).result.callId).None?
    ensures CardsShown(shown + more, log + [e])
  {
    hide LinkOf, Lines, ShownFor, LastShown, OpenCalls, StartedRun;
    forall run ensures Renews(more, log, e, run) {
      LogGrows(log, e, run);
    }
    CardsRenewed(shown, more, log, e);
  }

  lemma NoCard(updates: seq<Update>, id: string)
    requires forall u :: u in updates ==> !IsCard(u, id)
    ensures LastShown(updates, id).None?
  {
    LastShownConcat([], updates, id);
  }

  /** Updates that touch one card at most, which no linked run has, at an event that adds no line
      and links no run. */
  lemma OtherCards(shown: seq<Update>, more: seq<Update>, log: seq<Event>, e: Event, runs: map<string, Run>, id: string)
    requires CardsShown(shown, log) && RunsFit(runs, log)
    requires !e.Progressed? && (e.Finished? ==> StartedRun(KindIn(OpenCalls(log), e.result.callId), e.result).None?)
    requires forall u :: u in more && u.ToolProgress? ==>
               u.id == id && forall r :: r in runs && runs[r].card.Some? ==> runs[r].card.value.id != id
    ensures CardsShown(shown + more, log + [e])
  {
    hide LinkOf, Lines, ShownFor, LastShown, RunsFit, OpenCalls, StartedRun, CardsShown;
    forall run | LinkOf(log, run).Linked? ensures LastShown(more, LinkOf(log, run).result.callId).None? {
      LinkedCard(runs, log, run);
      NoCard(more, LinkOf(log, run).result.callId);
    }
    CardsKept(shown, more, log, e);
  }

  /** A line of a run, shown on its card or kept. */
  lemma CardProgress(shown: seq<Update>, more: seq<Update>, log: seq<Event>, p: Progress, runs: map<string, Run>,
                     workers: map<string, Card>)
    requires CardsShown(shown, log) && RunsFit(runs, log) && Apart(OpenCalls(log), runs, workers)
    requires LinkOf(log, p.run).Linked? ==>
               more == [ShownFor(LinkOf(log, p.run).result, Lines(log + [Progressed(p)], p.run))]
    requires forall u :: u in more ==>
              u.ToolProgress? && EntryOf(runs, p.run).card.Some? && u.id == EntryOf(runs, p.run).card.value.id
    ensures CardsShown(shown + more, log + [Progressed(p)])
  {
    hide LinkOf, Lines, TextOf, LastShown, RunsFit, OpenCalls, StartedRun, CardsShown;
    var e := Progressed(p);
    forall run ensures Renews(more, log, e, run) {
      LogGrows(log, e, run);
      if LinkOf(log + [e], run).Linked? {
        LinkedCard(runs, log, run);
        var id := LinkOf(log, run).result.callId;
        if run == p.run {
          OneShown(more[0], id);
        } else {
          NoCard(more, id);
        }
      }
    }
    CardsRenewed(shown, more, log, e);
  }

  lemma OneShown(update: Update, id: string)
    requires IsCard(update, id)
    ensures LastShown([update], id) == Some(update)
  {
  }

  /** A run that a start result names is shown with all its lines. */
  lemma CardLinked(shown: seq<Update>, messages: seq<Update>, log: seq<Event>, result: ToolResultItem, run: string,
                   runs: map<string, Run>, workers: map<string, Card>)
    requires CardsShown(shown, log) && RunsFit(runs, log) && Apart(OpenCalls(log), runs, workers)
    requires StartedRun(KindIn(OpenCalls(log), result.callId), result) == Some(run)
    requires forall u :: u in messages ==> u.Message?
    ensures CardsShown(shown + (RunUpdates(result, EntryOf(runs, run).pending) + messages), log + [Finished(result)])
  {
    hide LinkOf, Lines, TextOf, LastShown, RunsFit, OpenCalls, CardsShown, EntryOf, RunUpdates, StartedRun;
    var e, pending := Finished(result), EntryOf(runs, run).pending;
    var cards := RunUpdates(result, pending);
    LinkedWasOpen(OpenCalls(log), result);
    RunsLinked(runs, log, run, result);
    LastOfRun(result, pending);
    forall other ensures Renews(cards + messages, log, e, other) {
      LogGrows(log, e, other);
      if LinkOf(log + [e], other).Linked? {
        var id := LinkOf(log + [e], other).result.callId;
        LastShownConcat(cards, messages, id);
        NoCard(messages, id);
        if other != run {
          LinkedCard(runs, log, other);
          NoCard(cards, id);
        }
      }
    }
    CardsRenewed(shown, cards + messages, log, e);
  }

  lemma LinkedWasOpen(calls: map<string, Option<StartKind>>, result: ToolResultItem)
    requires StartedRun(KindIn(calls, result.callId), result).Some?
              || StartedWorker(KindIn(calls, result.callId), result).Some?
    ensures result.callId in calls
  {
  }

  lemma LastOfRun(result: ToolResultItem, pending: seq<Progress>)
    ensures LastShown(RunUpdates(result, pending), result.callId) == Some(ShownFor(result, pending))
    ensures forall u :: u in RunUpdates(result, pending) ==> IsCard(u, result.callId)
  {
    hide TextOf;
    assert pending[..|pending|] == pending;
  }

  // ------------------------------------------------------------------ what a result shows

  /** The card of a run from its start result on, line by line. */
  function RunUpdates(result: ToolResultItem, pending: seq<Progress>): (updates: seq<Update>)
    ensures |updates| == |pending| + 1 && forall n :: 0 <= n <= |pending| ==>
              updates[n] == ShownFor(result, pending[..n])
  {
    seq(|pending| + 1, n requires 0 <= n <= |pending| => ShownFor(result, pending[..n]))
  }

  function Messages(notes: seq<Note>): (updates: seq<Update>)
    ensures |updates| == |notes| && forall i :: 0 <= i < |notes| ==> updates[i] == Message(notes[i].1)
  {
    seq(|notes|, i requires 0 <= i < |notes| => Message(notes[i].1))
  }

  /** The worker a result makes a card for. */
  function LinkedWorker(kind: Option<StartKind>, result: ToolResultItem): Option<string> {
    if StartedRun(kind, result).Some? then None else StartedWorker(kind, result)
  }

  /** The queued notes a result's card takes, in order. */
  function Taken(kind: Option<StartKind>, result: ToolResultItem, notes: seq<Note>): seq<Note> {
    var worker := LinkedWorker(kind, result);
    if worker.Some? then NotesFor(notes, worker.value, true) else []
  }

  /** The notes that stay queued. */
  function Left(kind: Option<StartKind>, result: ToolResultItem, notes: seq<Note>): seq<Note> {
    var worker := LinkedWorker(kind, result);
    if worker.Some? then NotesFor(notes, worker.value, false) else notes
  }

  /** What a result shows: a run's card, or the call as finished and a worker's notes on it. */
  function ResultUpdates(kind: Option<StartKind>, result: ToolResultItem, runs: map<string, Run>,
                         notes: seq<Note>): seq<Update> {
    var run := StartedRun(kind, result);
    if run.Some? then RunUpdates(result, EntryOf(runs, run.value).pending)
    else [Update.ToolFinished(result.callId, result.status.Okay?, result.content)]
         + NoteUpdates(result.callId, result.content, Taken(kind, result, notes))
  }

  lemma ResultShowsTaken(kind: Option<StartKind>, result: ToolResultItem, runs: map<string, Run>, notes: seq<Note>)
    ensures ShowsNotes(ResultUpdates(kind, result, runs, notes), Taken(kind, result, notes))
    ensures multiset(notes) == multiset(Taken(kind, result, notes)) + multiset(Left(kind, result, notes))
  {
    hide StartedRun, StartedWorker, NotesFor, NoteUpdates, ShowsNotes, RunUpdates;
    var run, worker := StartedRun(kind, result), LinkedWorker(kind, result);
    if worker.Some? { NotesSplit(notes, worker.value); }
    if run.Some? {
      RunUpdatesShow(result, EntryOf(runs, run.value).pending);
    } else {
      var finished := [Update.ToolFinished(result.callId, result.status.Okay?, result.content)];
      ShowsNothing(finished);
      var taken := Taken(kind, result, notes);
      NoteUpdatesShow(result.callId, result.content, taken);
      ShowsConcat(finished, [], NoteUpdates(result.callId, result.content, taken), taken);
      assert [] + taken == taken;
    }
  }

  lemma {:induction false} NoteUpdatesOneCard(id: string, content: string, notes: seq<Note>)
    ensures forall u :: u in NoteUpdates(id, content, notes) ==> u.ToolProgress? && u.id == id
    ensures notes == [] ==> NoteUpdates(id, content, notes) == []
  {
    if notes != [] {
      NoteUpdatesOneCard(id, content, notes[..|notes| - 1]);
    }
  }

  lemma NoMessages(updates: seq<Update>)
    ensures updates + Messages([]) == updates
  {
  }

  /** A result and the flush behind it leave the linked cards as shown, and show a new one. */
  lemma CardsFinished(shown: seq<Update>, flushed: seq<Update>, log: seq<Event>, result: ToolResultItem,
                      runs: map<string, Run>, workers: map<string, Card>, notes: seq<Note>)
    requires CardsShown(shown, log) && RunsFit(runs, log) && Apart(OpenCalls(log), runs, workers)
    requires forall u :: u in flushed ==> u.Message?
    ensures CardsShown(shown + (ResultUpdates(KindIn(OpenCalls(log), result.callId), result, runs, notes) + flushed),
                       log + [Finished(result)])
  {
    hide LinkOf, Lines, TextOf, LastShown, RunsFit, OpenCalls, StartedRun, StartedWorker, CardsShown, EntryOf,
         RunUpdates, NoteUpdates;
    var kind := KindIn(OpenCalls(log), result.callId);
    var run := StartedRun(kind, result);
    if run.Some? {
      CardLinked(shown, flushed, log, result, run.value, runs, workers);
    } else {
      var taken := Taken(kind, result, notes);
      NoteUpdatesOneCard(result.callId, result.content, taken);
      if LinkedWorker(kind, result).Some? { LinkedWasOpen(OpenCalls(log), result); }
      OtherCards(shown, ResultUpdates(kind, result, runs, notes) + flushed, log, Finished(result), runs, result.callId);
    }
  }

  /** Notes that are taken or flushed are told, and the others wait. */
  lemma Accounted(all: seq<Note>, delivered: seq<Note>, notes: seq<Note>, told: seq<Note>, left: seq<Note>,
                  flushed: seq<Note>)
    requires multiset(all) == multiset(delivered) + multiset(notes)
    requires multiset(notes) == multiset(told) + multiset(left) && (flushed == [] || flushed == left)
    ensures multiset(all) == multiset(delivered + told + flushed) + multiset(if flushed == [] then left else [])
  {
  }

  /** A note on a worker's card, in a message or in the queue leaves the runs' cards alone. */
  lemma CardsNoted(shown: seq<Update>, delivered: seq<Note>, more: seq<Update>, told: seq<Note>, log: seq<Event>,
                   runs: map<string, Run>, id: string, worker: string, note: string)
    requires CardsShown(shown, log) && RunsFit(runs, log) && ShowsNotes(shown, delivered)
    requires
      || (more == [] && told == [])
      || (told == [(worker, note)] && more == [Message(note)])
      || (told == [(worker, note)] && |more| == 1 && more[0].ToolProgress? && more[0].id == id && more[0].status.None?
          && Tells(more[0], told[0]) && forall r :: r in runs && runs[r].card.Some? ==> runs[r].card.value.id != id)
    ensures CardsShown(shown + more, log + [WorkerEnded(worker, note)]) && ShowsNotes(shown + more, delivered + told)
  {
    hide LinkOf, Lines, ShownFor, LastShown, RunsFit, OpenCalls, StartedRun, CardsShown, ShowsNotes, Tells, KindIn;
    OtherCards(shown, more, log, WorkerEnded(worker, note), runs, id);
    if more == [] {
      ShowsNothing([]);
    } else {
      TellsMessage(note, worker);
      ShowsOne(more[0], told[0]);
      assert more == [more[0]] && told == [told[0]];
    }
    ShowsConcat(shown, delivered, more, told);
  }

  /** A linked run's card shows its start result and all its lines, and was last made to by an
      update; an unlinked run keeps all of them. Notes are told by one update each or queued, and
      queued only while some call is open. */
  ghost predicate Consistent(calls: map<string, Option<StartKind>>, runs: map<string, Run>, workers: map<string,
                             Card>, notes: seq<Note>,
                             log: seq<Event>, delivered: seq<Note>, shown: seq<Update>)
  {
    && calls == OpenCalls(log)
    && RunsFit(runs, log)
    && multiset(Notes(log)) == multiset(delivered) + multiset(notes)
    && (calls == map[] ==> notes == [])
    && Apart(calls, runs, workers)
    && ShowsNotes(shown, delivered)
    && CardsShown(shown, log)
  }

  lemma StartStays(calls: map<string, Option<StartKind>>, runs: map<string, Run>, workers: map<string, Card>,
                   notes: seq<Note>,
                   log: seq<Event>, delivered: seq<Note>, shown: seq<Update>,
                   unlinked: map<string, Run>, kept: map<string, Card>, id: string, kind: Option<StartKind>)
    requires Consistent(calls, runs, workers, notes, log, delivered, shown)
    requires unlinked == map r | r in runs ::
              if runs[r].card.Some? && runs[r].card.value.id == id then Run(None, runs[r].pending) else runs[r]
    requires kept == map w | w in workers && workers[w].id != id :: workers[w]
    ensures Consistent(calls[id := kind], unlinked, kept, notes, log + [Started(id, kind)], delivered, shown)
  {
    hide OpenCalls, Lines, LinkOf, Notes, RunsFit, ShowsNotes, CardsShown, Apart, KindIn, StartedRun;
    RunsUnlinked(runs, unlinked, log, id, kind);
    ApartStarted(calls, runs, workers, unlinked, kept, id, kind);
    LogGrows(log, Started(id, kind), "");
    OtherCards(shown, [], log, Started(id, kind), runs, "");
    assert shown + [] == shown;
  }

  /** What a line of a run leads to. */
  function RunAfter(run: Run, p: Progress): Run {
    if run.card.Some? then run.(card := Some(run.card.value.(text := Append(run.card.value.text, p.line))))
    else run.(pending := run.pending + [p])
  }

  function ProgressUpdates(run: Run, p: Progress): seq<Update> {
    if run.card.Some? then [ToolProgress(run.card.value.id, Append(run.card.value.text, p.line), Some(StatusOf(p)))] else []
  }

  lemma ProgressStays(calls: map<string, Option<StartKind>>, runs: map<string, Run>, workers: map<string, Card>,
                      notes: seq<Note>,
                      log: seq<Event>, delivered: seq<Note>, shown: seq<Update>, p: Progress)
    requires Consistent(calls, runs, workers, notes, log, delivered, shown)
    ensures var entry := EntryOf(runs, p.run);
            var log' := log + [Progressed(p)];
            var updates := ProgressUpdates(entry, p);
            && Consistent(calls, runs[p.run := RunAfter(entry, p)], workers, notes, log', delivered, shown + updates)
            && (LinkOf(log', p.run).Unlinked? ==> updates == [])
            && (LinkOf(log', p.run).Linked? ==> updates == [ShownFor(LinkOf(log', p.run).result, Lines(log', p.run))])
  {
    hide OpenCalls, Lines, LinkOf, Notes, TextOf, RunsFit, ShowsNotes, CardsShown, Apart, KindIn, StartedRun,
         StatusOf, Append;
    var entry := EntryOf(runs, p.run);
    var updates := ProgressUpdates(entry, p);
    FitsOne(runs, log, p.run);
    RunsProgress(runs, log, p);
    LogGrows(log, Progressed(p), p.run);
    FitsOne(runs[p.run := RunAfter(entry, p)], log + [Progressed(p)], p.run);
    CardProgress(shown, updates, log, p, runs, workers);
    ApartProgress(calls, runs, workers, p);
    ShowsNothing(updates);
    ShowsConcat(shown, delivered, updates, []);
    assert delivered + [] == delivered;
  }

  lemma ApartProgress(calls: map<string, Option<StartKind>>, runs: map<string, Run>, workers: map<string, Card>,
                      p: Progress)
    requires Apart(calls, runs, workers)
    ensures Apart(calls, runs[p.run := RunAfter(EntryOf(runs, p.run), p)], workers)
  {
    hide Append;
  }

  /** A note that nothing shows yet waits. */
  lemma NoteWaits(calls: map<string, Option<StartKind>>, runs: map<string, Run>, workers: map<string, Card>,
                  notes: seq<Note>,
                  log: seq<Event>, delivered: seq<Note>, shown: seq<Update>, worker: string, note: string)
    requires Consistent(calls, runs, workers, notes, log, delivered, shown) && calls != map[]
    ensures Consistent(calls, runs, workers, notes + [(worker, note)], log + [WorkerEnded(worker, note)], delivered,
                       shown)
  {
    hide OpenCalls, Lines, LinkOf, Notes, RunsFit, ShowsNotes, CardsShown, Apart, KindIn, StartedRun;
    var e := WorkerEnded(worker, note);
    RunsKept(runs, log, e);
    LogGrows(log, e, "");
    CardsNoted(shown, delivered, [], [], log, runs, "", worker, note);
    assert delivered + [] == delivered && shown + [] == shown;
  }

  /** A note is told by a message, or by its worker's card. */
  lemma NoteTold(calls: map<string, Option<StartKind>>, runs: map<string, Run>, workers: map<string, Card>,
                 notes: seq<Note>,
                 log: seq<Event>, delivered: seq<Note>, shown: seq<Update>, worker: string, note: string,
                   card: Option<Card>)
    requires Consistent(calls, runs, workers, notes, log, delivered, shown)
    requires card.Some? ==>
              worker in workers && card.value == workers[worker].(text := Append(workers[worker].text, note))
    ensures var updates := [if card.Some? then ToolProgress(card.value.id, card.value.text, None) else Message(note)];
            Consistent(calls, runs, if card.Some? then workers[worker := card.value] else workers, notes,
                       log + [WorkerEnded(worker, note)], delivered + [(worker, note)], shown + updates)
  {
    hide OpenCalls, Lines, LinkOf, Notes, RunsFit, ShowsNotes, CardsShown, Append, Apart, KindIn, StartedRun, Tells;
    var e := WorkerEnded(worker, note);
    RunsKept(runs, log, e);
    LogGrows(log, e, "");
    if card.Some? {
      ApartNoted(calls, runs, workers, worker, card.value.text);
      TellsLast(card.value, note, worker);
      CardsNoted(shown, delivered, [ToolProgress(card.value.id, card.value.text, None)], [(worker, note)], log, runs,
                 card.value.id, worker, note);
    } else {
      CardsNoted(shown, delivered, [Message(note)], [(worker, note)], log, runs, "", worker, note);
    }
  }

  /** What a result and the flush behind it lead to. */
  lemma FinishStays(calls: map<string, Option<StartKind>>, runs: map<string, Run>, workers: map<string, Card>,
                    notes: seq<Note>,
                    log: seq<Event>, delivered: seq<Note>, shown: seq<Update>,
                    linked: map<string, Run>, carded: map<string, Card>, result: ToolResultItem)
    requires Consistent(calls, runs, workers, notes, log, delivered, shown)
    requires RunsFit(linked, log + [Finished(result)]) && Apart(calls - {result.callId}, linked, carded)
    ensures var kind := KindIn(calls, result.callId);
            var left := Left(kind, result, notes);
            var flushed := if calls - {result.callId} == map[] then left else [];
            Consistent(calls - {result.callId}, linked, carded, if calls - {result.callId} == map[] then [] else left,
                       log + [Finished(result)], delivered + Taken(kind, result, notes) + flushed,
                       shown + (ResultUpdates(kind, result, runs, notes) + Messages(flushed)))
  {
    hide OpenCalls, Lines, LinkOf, Notes, StartedRun, StartedWorker, TextOf, RunsFit, ShowsNotes, CardsShown, Apart,
         Taken, Left, ResultUpdates, Messages, EntryOf, KindIn;
    var kind, e := KindIn(calls, result.callId), Finished(result);
    var told, left, updates := Taken(kind, result, notes), Left(kind, result, notes),
          ResultUpdates(kind, result, runs, notes);
    var flushed := if calls - {result.callId} == map[] then left else [];
    LogGrows(log, e, "");
    ResultShowsTaken(kind, result, runs, notes);
    MessagesShow(flushed);
    CardsFinished(shown, Messages(flushed), log, result, runs, workers, notes);
    ShowsConcat(updates, told, Messages(flushed), flushed);
    ShowsConcat(shown, delivered, updates + Messages(flushed), told + flushed);
    assert delivered + told + flushed == delivered + (told + flushed);
    Accounted(Notes(log), delivered, notes, told, left, flushed);
  }

  lemma TurnEndStays(calls: map<string, Option<StartKind>>, runs: map<string, Run>, workers: map<string, Card>,
                     notes: seq<Note>,
                     log: seq<Event>, delivered: seq<Note>, shown: seq<Update>)
    requires Consistent(calls, runs, workers, notes, log, delivered, shown)
    ensures Consistent(map[], runs, workers, [], log + [TurnEnded], delivered + notes, shown + Messages(notes))
  {
    hide OpenCalls, Lines, LinkOf, Notes, RunsFit, ShowsNotes, CardsShown, StartedRun, KindIn;
    RunsKept(runs, log, TurnEnded);
    LogGrows(log, TurnEnded, "");
    MessagesShow(notes);
    ShowsConcat(shown, delivered, Messages(notes), notes);
    OtherCards(shown, Messages(notes), log, TurnEnded, runs, "");
  }

  lemma ConsistentParts(calls: map<string, Option<StartKind>>, runs: map<string, Run>, workers: map<string, Card>,
                        notes: seq<Note>,
                        log: seq<Event>, delivered: seq<Note>, shown: seq<Update>)
    requires Consistent(calls, runs, workers, notes, log, delivered, shown)
    ensures calls == OpenCalls(log) && RunsFit(runs, log) && Apart(calls, runs, workers)
    ensures multiset(Notes(log)) == multiset(delivered) + multiset(notes) && (calls == map[] ==> notes == [])
    ensures ShowsNotes(shown, delivered) && CardsShown(shown, log)
  {
  }

  class WorkflowCards {
    var calls: map<string, Option<StartKind>>
    var runs: map<string, Run>
    var workers: map<string, Card>
    var workerNotes: seq<Note>

    ghost var log: seq<Event>
    /** The notes shown so far, in the order they were shown. */
    ghost var delivered: seq<Note>
    /** All updates so far. */
    ghost var shown: seq<Update>

    ghost predicate Valid()
      reads this
    {
      Consistent(calls, runs, workers, workerNotes, log, delivered, shown)
    }

    constructor ()
      ensures Valid() && log == [] && delivered == [] && shown == []
    {
      calls, runs, workers, workerNotes, log, delivered, shown := map[], map[], map[], [], [], [], [];
    }

    /** `started`: a reused call id loses its cards. */
    method Start(id: string, kind: Option<StartKind>)
      requires Valid()
      modifies this
      ensures Valid() && log == old(log) + [Started(id, kind)] && delivered == old(delivered) && shown == old(shown)
      ensures forall w :: w in workers <==> w in old(workers) && old(workers)[w].id != id
      ensures forall w :: w in workers ==> workers[w] == old(workers)[w]
    {
      hide Consistent, OpenCalls, Lines, LinkOf, Notes;
      var kept := map w | w in workers && workers[w].id != id :: workers[w];
      var unlinked := map run | run in runs :: if runs[run].card.Some? && runs[run].card.value.id == id then Run(None, runs[run].pending) else runs[run];
      StartStays(calls, runs, workers, workerNotes, log, delivered, shown, unlinked, kept, id, kind);
      workers, runs, calls := kept, unlinked, calls[id := kind];
      log := log + [Started(id, kind)];
    }

    /** `progress`: shown at once on a linked card, kept otherwise. */
    method Observe(progress: Progress) returns (updates: seq<Update>)
      requires Valid()
      modifies this
      ensures Valid() && log == old(log) + [Progressed(progress)] && delivered == old(delivered)
                && shown == old(shown) + updates
      ensures LinkOf(log, progress.run).Unlinked? ==> updates == []
      ensures LinkOf(log, progress.run).Linked? ==>
                updates == [ShownFor(LinkOf(log, progress.run).result, Lines(log, progress.run))]
    {
      hide Consistent, OpenCalls, Lines, LinkOf, Notes, TextOf, Append, StatusOf;
      ProgressStays(calls, runs, workers, workerNotes, log, delivered, shown, progress);
      var run := EntryOf(runs, progress.run);
      if run.card.Some? {
        var card := run.card.value.(text := Append(run.card.value.text, progress.line));
        runs := runs[progress.run := run.(card := Some(card))];
        updates := [ToolProgress(card.id, card.text, Some(StatusOf(progress)))];
      } else {
        runs := runs[progress.run := run.(pending := run.pending + [progress])];
        updates := [];
      }
      assert updates == ProgressUpdates(run, progress);
      log, shown := log + [Progressed(progress)], shown + updates;
    }

    /** `worker_ended`: on the worker's card, at once when nothing is open, or queued. */
    method EndWorker(worker: string, note: string) returns (updates: seq<Update>)
      requires Valid()
      modifies this
      ensures Valid() && log == old(log) + [WorkerEnded(worker, note)] && shown == old(shown) + updates
      ensures if worker in old(workers) then
                updates == [ToolProgress(old(workers)[worker].id, Append(old(workers)[worker].text, note), None)]
              else updates == if calls == map[] then [Message(note)] else []
      ensures delivered == if updates == [] then old(delivered) else old(delivered) + [(worker, note)]
      ensures workerNotes == if updates == [] then old(workerNotes) + [(worker, note)] else old(workerNotes)
    {
      hide Consistent, OpenCalls, Lines, LinkOf, Notes, Append;
      if worker in workers {
        var card := workers[worker].(text := Append(workers[worker].text, note));
        NoteTold(calls, runs, workers, workerNotes, log, delivered, shown, worker, note, Some(card));
        workers := workers[worker := card];
        updates := [ToolProgress(card.id, card.text, None)];
        delivered := delivered + [(worker, note)];
      } else if calls == map[] {
        NoteTold(calls, runs, workers, workerNotes, log, delivered, shown, worker, note, None);
        updates := [Message(note)];
        delivered := delivered + [(worker, note)];
      } else {
        NoteWaits(calls, runs, workers, workerNotes, log, delivered, shown, worker, note);
        workerNotes := workerNotes + [(worker, note)];
        updates := [];
      }
      assert shown + [] == shown;
      log, shown := log + [WorkerEnded(worker, note)], shown + updates;
    }

    /** `finished`: a start result becomes a card, with everything reported before it. */
    method Finish(result: ToolResultItem) returns (updates: seq<Update>)
      requires Valid()
      modifies this
      ensures Valid() && log == old(log) + [Finished(result)] && shown == old(shown) + updates
      ensures calls == old(calls) - {result.callId}
      ensures var kind := KindIn(old(calls), result.callId);
              var left := Left(kind, result, old(workerNotes));
              var flushed := if calls == map[] then left else [];
              && updates == ResultUpdates(kind, result, old(runs), old(workerNotes)) + Messages(flushed)
              && delivered == old(delivered) + Taken(kind, result, old(workerNotes)) + flushed
              && workerNotes == if calls == map[] then [] else left
      ensures var run := StartedRun(KindIn(old(calls), result.callId), result);
              run.Some? && LinkOf(old(log), run.value).Unlinked? ==>
                var lines := Lines(log, run.value);
                && LinkOf(log, run.value) == Linked(result) && |updates| > |lines|
                && forall n :: 0 <= n <= |lines| ==> updates[n] == ShownFor(result, lines[..n])
      ensures var kind := KindIn(old(calls), result.callId);
              StartedRun(kind, result).None? ==>
                updates != [] && updates[0] == Update.ToolFinished(result.callId, result.status.Okay?, result.content)
    {
      hide OpenCalls, Lines, LinkOf, Notes, StartedRun, StartedWorker, TextOf, RunsFit, ShowsNotes, CardsShown,
           Apart, Taken, Left, ResultUpdates, Messages, EntryOf, KindIn, Consistent;
      ghost var runsBefore, workersBefore, notes := runs, workers, workerNotes;
      ConsistentParts(calls, runs, workers, workerNotes, log, delivered, shown);
      var kind := KindIn(calls, result.callId);
      FinishedLines(kind, result, runs, notes, log);
      calls := calls - {result.callId};
      updates := Settle(kind, result);
      FinishStays(old(calls), runsBefore, workersBefore, notes, log, old(delivered), shown, runs, workers, result);
      NoMessages(updates);
      if calls == map[] {
        var messages := UnlinkedNotes();
        updates := updates + messages;
      } else {
        assert delivered + [] == delivered;
      }
      log, shown := log + [Finished(result)], shown + updates;
    }

    /** What the result itself shows. */
    method Settle(kind: Option<StartKind>, result: ToolResultItem) returns (updates: seq<Update>)
      requires RunsFit(runs, log) && Apart(OpenCalls(log), runs, workers)
                && kind == KindIn(OpenCalls(log), result.callId)
      modifies this`runs, this`workers, this`workerNotes, this`delivered
      ensures RunsFit(runs, log + [Finished(result)]) && Apart(OpenCalls(log) - {result.callId}, runs, workers)
      ensures updates == ResultUpdates(kind, result, old(runs), old(workerNotes))
      ensures delivered == old(delivered) + Taken(kind, result, old(workerNotes))
      ensures workerNotes == Left(kind, result, old(workerNotes))
    {
      hide OpenCalls, Lines, LinkOf, StartedRun, StartedWorker, TextOf, RunsFit, NotesFor, NoteUpdates, RunUpdates,
           WithNotes;
      if LinkedWorker(kind, result).Some? || StartedRun(kind, result).Some? { LinkedWasOpen(OpenCalls(log), result); }
      var run := StartedRun(kind, result);
      if run.Some? {
        updates := LinkRun(run.value, result);
      } else {
        var worker := StartedWorker(kind, result);
        updates := [Update.ToolFinished(result.callId, result.status.Okay?, result.content)];
        NoNotes(result.callId, result.content, "");
        if worker.Some? {
          var notes := LinkWorker(worker.value, result);
          updates := updates + notes;
        }
        RunsKept(runs, log, Finished(result));
      }
    }

    /** The card of a run that was named by a start result. */
    method LinkRun(run: string, result: ToolResultItem) returns (updates: seq<Update>)
      requires RunsFit(runs, log)
      requires StartedRun(KindIn(OpenCalls(log), result.callId), result) == Some(run)
      modifies this`runs
      ensures RunsFit(runs, log + [Finished(result)])
      ensures updates == RunUpdates(result, EntryOf(old(runs), run).pending)
      ensures runs == old(runs)[run := Run(Some(Card(result.callId,
                                                     TextOf(result.content, EntryOf(old(runs), run).pending))), [])]
    {
      hide OpenCalls, Lines, LinkOf, StartedRun, TextOf, RunsFit;
      RunsLinked(runs, log, run, result);
      var pending := EntryOf(runs, run).pending;
      var text := result.content;
      updates := [ToolProgress(result.callId, text, Some(Running))];
      NoText(result.content);
      for i := 0 to |pending|
        invariant text == TextOf(result.content, pending[..i]) && runs == old(runs)
        invariant |updates| == i + 1
        invariant forall n :: 0 <= n <= i ==> updates[n] == ShownFor(result, pending[..n])
      {
        TextGrows(result.content, pending[..i], pending[i]);
        assert pending[..i + 1] == pending[..i] + [pending[i]];
        text := Append(text, pending[i].line);
        updates := updates + [ToolProgress(result.callId, text, Some(StatusOf(pending[i])))];
      }
      assert pending[..|pending|] == pending;
      runs := runs[run := Run(Some(Card(result.callId, text)), [])];
    }

    /** The card of a worker, with the notes queued for it, in order; the others stay queued. */
    method LinkWorker(worker: string, result: ToolResultItem) returns (updates: seq<Update>)
      modifies this`workers, this`workerNotes, this`delivered
      ensures workerNotes == NotesFor(old(workerNotes), worker, false)
      ensures delivered == old(delivered) + NotesFor(old(workerNotes), worker, true)
      ensures workers == old(workers)[worker := Card(result.callId,
                                                     WithNotes(result.content, NotesFor(old(workerNotes), worker,
                                                     true)))]
      ensures updates == NoteUpdates(result.callId, result.content, NotesFor(old(workerNotes), worker, true))
    {
      hide NotesFor, WithNotes, NoteUpdates;
      updates := [];
      var card := Card(result.callId, result.content);
      var taken := workerNotes;
      ghost var before := delivered;
      workerNotes := [];
      NoNotes(result.callId, result.content, worker);
      for i := 0 to |taken|
        invariant workerNotes == NotesFor(taken[..i], worker, false)
        invariant delivered == before + NotesFor(taken[..i], worker, true)
        invariant card == Card(result.callId, WithNotes(result.content, NotesFor(taken[..i], worker, true)))
        invariant updates == NoteUpdates(result.callId, result.content, NotesFor(taken[..i], worker, true))
        invariant workers == old(workers)
      {
        assert taken[..i + 1] == taken[..i] + [taken[i]];
        NotesPush(taken[..i], taken[i], worker);
        WithNotesPush(result.callId, result.content, NotesFor(taken[..i], worker, true), taken[i]);
        if taken[i].0 == worker {
          card := card.(text := Append(card.text, taken[i].1));
          updates := updates + [ToolProgress(card.id, card.text, None)];
          delivered := delivered + [taken[i]];
        } else {
          workerNotes := workerNotes + [taken[i]];
        }
      }
      assert taken[..|taken|] == taken;
      workers := workers[worker := card];
    }

    /** `turn_ended`. */
    method EndTurn() returns (updates: seq<Update>)
      requires Valid()
      modifies this
      ensures Valid() && log == old(log) + [TurnEnded] && calls == map[] && workerNotes == []
      ensures delivered == old(delivered) + old(workerNotes) && shown == old(shown) + updates
      ensures updates == Messages(old(workerNotes))
    {
      hide Consistent, OpenCalls, Lines, LinkOf, Notes;
      TurnEndStays(calls, runs, workers, workerNotes, log, delivered, shown);
      calls := map[];
      log := log + [TurnEnded];
      updates := UnlinkedNotes();
      shown := shown + updates;
    }

    /** Every queued note, as a message. */
    method UnlinkedNotes() returns (updates: seq<Update>)
      modifies this`workerNotes, this`delivered
      ensures workerNotes == [] && delivered == old(delivered) + old(workerNotes)
      ensures updates == Messages(old(workerNotes))
    {
      updates := Messages(workerNotes);
      delivered := delivered + workerNotes;
      workerNotes := [];
    }
  }

  /** A start result that names a run nothing else named shows all that was reported before it. */
  lemma FinishedLines(kind: Option<StartKind>, result: ToolResultItem, runs: map<string, Run>, notes: seq<Note>,
                      log: seq<Event>)
    requires RunsFit(runs, log) && kind == KindIn(OpenCalls(log), result.callId)
    ensures var updates, run := ResultUpdates(kind, result, runs, notes), StartedRun(kind, result);
            && (run.None? ==>
              updates != [] && updates[0] == Update.ToolFinished(result.callId, result.status.Okay?, result.content))
            && (run.Some? && LinkOf(log, run.value).Unlinked? ==>
                  var lines := Lines(log + [Finished(result)], run.value);
                  && LinkOf(log + [Finished(result)], run.value) == Linked(result) && |updates| > |lines|
                  && forall n :: 0 <= n <= |lines| ==> updates[n] == ShownFor(result, lines[..n]))
  {
    hide OpenCalls, Lines, LinkOf, StartedRun, StartedWorker, TextOf, RunsFit, NotesFor, NoteUpdates;
    var run := StartedRun(kind, result);
    if run.Some? {
      RunsLinked(runs, log, run.value, result);
    }
  }

  /** Any sequence of observations, and all updates it leads to: every run that exactly one start
      result named was last made to show that result followed by all the run's lines, and every
      note was told by one update or waits for a call that is still open. */
  method Play(events: seq<Event>) returns (cards: WorkflowCards, updates: seq<Update>)
    ensures fresh(cards) && cards.Valid() && cards.log == events && cards.shown == updates
    ensures forall run :: LinkOf(events, run).Linked? ==>
              var result := LinkOf(events, run).result;
              LastShown(updates, result.callId) == Some(ShownFor(result, Lines(events, run)))
    ensures forall run :: LinkOf(events, run).Linked? ==>
              var result := LinkOf(events, run).result;
              EntryOf(cards.runs, run).card == Some(Card(result.callId, TextOf(result.content, Lines(events, run))))
    ensures multiset(Notes(events)) == multiset(cards.delivered) + multiset(cards.workerNotes)
    ensures ShowsNotes(updates, cards.delivered)
    ensures cards.workerNotes != [] ==> OpenCalls(events) != map[]
  {
    hide Consistent, ShowsNotes, LastShown, ShownFor, TextOf, Apart, RunsFit, Lines, LinkOf, OpenCalls, Notes,
         StartedRun;
    cards := new WorkflowCards();
    updates := [];
    for i := 0 to |events|
      invariant fresh(cards) && cards.Valid() && cards.log == events[..i] && cards.shown == updates
    {
      assert events[..i + 1] == events[..i] + [events[i]];
      var more: seq<Update> := [];
      match events[i] {
        case Started(id, kind) => cards.Start(id, kind);
        case Progressed(progress) => more := cards.Observe(progress);
        case WorkerEnded(worker, note) => more := cards.EndWorker(worker, note);
        case Finished(result) => more := cards.Finish(result);
        case TurnEnded => more := cards.EndTurn();
      }
      updates := updates + more;
    }
    assert events[..|events|] == events;
    ConsistentParts(cards.calls, cards.runs, cards.workers, cards.workerNotes, cards.log, cards.delivered, cards.shown);
    forall run | LinkOf(events, run).Linked?
      ensures var result := LinkOf(events, run).result;
              EntryOf(cards.runs, run).card == Some(Card(result.callId, TextOf(result.content, Lines(events, run))))
    {
      FitsOne(cards.runs, cards.log, run);
    }
  }

  /** The notes of one worker, or all the others, in order. */
  function NotesFor(notes: seq<Note>, worker: string, mine: bool): seq<Note> {
    if notes == [] then []
    else
      NotesFor(notes[..|notes| - 1], worker, mine)
      + if (notes[|notes| - 1].0 == worker) == mine then [notes[|notes| - 1]] else []
  }

  function WithNotes(content: string, notes: seq<Note>): string {
    if notes == [] then content else Append(WithNotes(content, notes[..|notes| - 1]), notes[|notes| - 1].1)
  }

  function NoteUpdates(id: string, content: string, notes: seq<Note>): seq<Update> {
    if notes == [] then []
    else NoteUpdates(id, content, notes[..|notes| - 1]) + [ToolProgress(id, WithNotes(content, notes), None)]
  }

  lemma NoNotes(id: string, content: string, worker: string)
    ensures NotesFor([], worker, true) == [] == NotesFor([], worker, false)
    ensures WithNotes(content, []) == content && NoteUpdates(id, content, []) == []
  {
  }

  lemma NotesPush(notes: seq<Note>, note: Note, worker: string)
    ensures NotesFor(notes + [note], worker, true) ==
              if note.0 == worker then NotesFor(notes, worker, true) + [note] else NotesFor(notes, worker, true)
    ensures NotesFor(notes + [note], worker, false) ==
              if note.0 == worker then NotesFor(notes, worker, false) else NotesFor(notes, worker, false) + [note]
  {
    assert (notes + [note])[..|notes|] == notes;
  }

  lemma WithNotesPush(id: string, content: string, notes: seq<Note>, note: Note)
    ensures WithNotes(content, notes + [note]) == Append(WithNotes(content, notes), note.1)
    ensures NoteUpdates(id, content, notes + [note])
            == NoteUpdates(id, content, notes) + [ToolProgress(id, Append(WithNotes(content, notes), note.1), None)]
  {
    assert (notes + [note])[..|notes|] == notes;
  }

  lemma {:induction false} NotesSplit(notes: seq<Note>, worker: string)
    ensures multiset(notes) == multiset(NotesFor(notes, worker, true)) + multiset(NotesFor(notes, worker, false))
  {
    if notes == [] {
      NoNotes("", "", worker);
    } else {
      hide NotesFor;
      var m := |notes| - 1;
      NotesSplit(notes[..m], worker);
      NotesPush(notes[..m], notes[m], worker);
      assert notes == notes[..m] + [notes[m]];
    }
  }

  lemma TextGrows(content: string, lines: seq<Progress>, p: Progress)
    ensures TextOf(content, lines + [p]) == Append(TextOf(content, lines), p.line)
  {
    assert (lines + [p])[..|lines|] == lines;
  }

  lemma NoText(content: string)
    ensures TextOf(content, []) == content
  {
  }
}
