/**
 What clients of the server get to see, over every history of requests, decode steps, removals and
 exceptions (`pace/server/engine/server.py`, `pace/server/engine/frontend.py`).
 */
module ServedRequests {
  import opened Results
  import opened LanguageModels
  import opened Stopping
  import opened GreedyRuns
  import opened SpeculativeRuns
  import opened ServerSequences
  import opened ServerRuns

  /** A client's request, the tokens reported to it so far, and the last status. */
  datatype Client = Client(s: Setup, tokens: seq<Token>, status: Status) {
    function Receive(report: Report): Client {
      this.(tokens := tokens + report.tokens, status := report.status)
    }
  }

  datatype Models = Models(target: LanguageModel, draft: LanguageModel, pardToken: Token, draftSize: nat) {
    function SetupOf(prompt: seq<Token>, maxNew: nat, eos: set<Token>): Setup {
      Setup(target, draft, pardToken, draftSize, prompt, maxNew, eos)
    }
  }

  datatype Service = Service(queue: Queue, clients: map<nat, Client>)

  /** What the frontend asks of the executor; `raises` says whether something beyond the model goes wrong. */
  datatype Action =
    | PrefillRequest(id: nat, prompt: seq<Token>, maxNew: nat, eos: set<Token>, raises: bool)
    | DecodeStep(raises: bool)
    | Remove(ids: set<nat>)

  /** Identifiers are never used twice. */
  predicate Possible(w: Service, action: Action) {
    && Servable(w.queue)
    && (action.PrefillRequest? ==> action.prompt != [] && action.maxNew > 0 && action.id !in w.clients)
  }

  function Deliver(clients: map<nat, Client>, reports: map<nat, Report>): map<nat, Client> {
    map id | id in clients :: if id in reports then clients[id].Receive(reports[id]) else clients[id]
  }

  /** What a prefill reports. */
  function PrefillReport(r: Stepped): Report {
    Report(r.tokens, if r.stopped then Completed(r.reason) else PrefillCompleted)
  }

  ghost function Next(models: Models, w: Service, action: Action): Service
    requires Possible(w, action)
  {
    match action
    case PrefillRequest(id, prompt, maxNew, eos, raises) =>
      var s := models.SetupOf(prompt, maxNew, eos);
      var r := Prefilled(id, s);
      if raises || r.Failure? then w.(clients := w.clients[id := Client(s, [], Error)])
      else
        Service(if r.value.stopped then w.queue else w.queue[id := r.value.q],
                w.clients[id := Client(s, [], PrefillCompleted).Receive(PrefillReport(r.value))])
    case DecodeStep(raises) =>
      if !raises && AllAdvance(w.queue) then
        Service(QueueAfter(w.queue, w.queue.Keys), Deliver(w.clients, ReportsAfter(w.queue, w.queue.Keys)))
      else
        Service(map[], Deliver(w.clients, Failed(w.queue)))
    case Remove(ids) => w.(queue := w.queue - ids)
  }

  // ----- what always holds -----

  /** A client has been told the target's own greedy tokens, all of them when its request is complete. */
  ghost predicate ClientOk(c: Client) {
    && c.s.maxNew > 0 && |c.tokens| <= ServedLength(c.s) && c.s.prompt + c.tokens == c.s.Committed(|c.tokens|)
    && (c.status.Completed? ==> |c.tokens| == ServedLength(c.s) && c.status.reason == ReasonAt(|c.tokens|, c.s.maxNew))
  }

  /** A request in the queue is where its client believes it to be, on its way to where it ends. */
  ghost predicate Open(q: Sequence, c: Client) {
    && q.s == c.s && Live(q, |c.tokens|) && q.all == c.s.prompt + c.tokens
    && (c.status.PrefillCompleted? || c.status.DecodingInProgress?)
    && ServedLengthFrom(c.s, |c.tokens|) == ServedLength(c.s)
  }

  ghost predicate Invariant(models: Models, w: Service) {
    && models.draftSize > 0
    && (forall id :: id in w.clients ==> ClientOk(w.clients[id]))
    && forall id :: id in w.queue ==>
         && w.queue[id].s.draftSize == models.draftSize
         && id in w.clients && Open(w.queue[id], w.clients[id])
  }

  lemma {:induction false} ServedAtLeast(s: Setup, n: nat)
    ensures n <= ServedLengthFrom(s, n)
    decreases s.maxNew - n
  {
    if n < s.maxNew && !s.StopsWithin(n, NextLength(s, n)) {
      ServedAtLeast(s, NextLength(s, n));
    }
  }

  lemma Joined(a: seq<Token>, b: seq<Token>, c: seq<Token>)
    ensures a + (b + c) == (a + b) + c
  {
  }

  /** One report of a request takes its client along. */
  lemma ReportFollows(c: Client, q: Sequence, r: Stepped, c': Client, n: nat, m: nat)
    requires ClientOk(c) && Open(q, c) && n == |c.tokens| && m == NextLength(c.s, n) && SteppedTo(r, c.s, n, m)
    requires c' == c.Receive(ReportOf(r))
    ensures ClientOk(c') && |c'.tokens| == m > n
    ensures !r.stopped ==> Open(r.q, c')
  {
    assert 0 < n < c.s.maxNew;
    hide Live, Setup.Committed, Setup.StopsWithin, NextLength;
    Joined(c.s.prompt, c.tokens, r.tokens);
    assert c'.s.prompt + c'.tokens == c.s.Committed(m);
    assert |c'.tokens| == m;
    ServedAtLeast(c.s, m);
  }

  /** The first report of a request. */
  lemma FirstReport(c: Client, r: Stepped, report: Report)
    requires c.s.maxNew > 0 && c.tokens == [] && SteppedTo(r, c.s, 0, 1) && report == PrefillReport(r)
    ensures ClientOk(c.Receive(report))
    ensures !r.stopped ==> Open(r.q, c.Receive(report))
  {
    hide Live;
    assert c.s.Committed(0) == c.s.prompt;
    assert c.s.prompt + ([] + r.tokens) == c.s.prompt + r.tokens;
    ServedAtLeast(c.s, 1);
  }

  // ----- one action -----

  /** A request takes its step. */
  lemma OpenAdvances(q: Sequence, c: Client) returns (r: Stepped)
    requires Open(q, c) && q.s.draftSize <= FILLER_COUNT + 1
    ensures q.Advance() == Success(r) && Width(q) == q.s.draftSize
    ensures SteppedTo(r, c.s, |c.tokens|, NextLength(c.s, |c.tokens|))
  {
    r := AdvanceFollows(q, |c.tokens|);
    var _ := DraftFollows(q, |c.tokens|);
  }

  /** A decode step raises nothing, for any two models and any requests, exactly up to 33 tokens a proposal. */
  lemma AdvanceIff(models: Models, w: Service)
    requires Invariant(models, w)
    ensures Servable(w.queue)
    ensures AllAdvance(w.queue) <==> w.queue == map[] || models.draftSize <= FILLER_COUNT + 1
  {
    hide Open, Live, ClientOk, Sequence.Advance, Width, SteppedTo;
    if models.draftSize <= FILLER_COUNT + 1 {
      forall id | id in w.queue
        ensures w.queue[id].Advance().Success? && Width(w.queue[id]) == models.draftSize
      {
        var r := OpenAdvances(w.queue[id], w.clients[id]);
      }
    } else if w.queue != map[] {
      var id :| id in w.queue;
      OpenFails(w.queue[id], w.clients[id]);
    }
  }

  lemma OpenFails(q: Sequence, c: Client)
    requires Open(q, c) && q.s.draftSize > FILLER_COUNT + 1
    ensures q.Advance().Failure?
  {
    FirstStepFails(q, |c.tokens|);
  }

  /** A new client, and its request if that goes on. */
  lemma PrefillKeeps(models: Models, w: Service, action: Action)
    requires Invariant(models, w) && action.PrefillRequest? && Possible(w, action)
    ensures Invariant(models, Next(models, w, action))
    ensures !action.raises ==> Next(models, w, action).clients[action.id].status != Error
  {
    var s := models.SetupOf(action.prompt, action.maxNew, action.eos);
    var r := PrefillFollows(action.id, s);
    assert r.q.s == s;
    var c := Client(s, [], PrefillCompleted);
    FirstReport(c, r, PrefillReport(r));
    FailedClient(s);
    hide Open, Live, ClientOk, SteppedTo, Prefilled;
    Registered(models, w, action.id, Client(s, [], Error), w.queue);
    Registered(models, w, action.id, c.Receive(PrefillReport(r)), if r.stopped then w.queue else w.queue[action.id := r.q]);
  }

  lemma Registered(models: Models, w: Service, id: nat, c: Client, queue: Queue)
    requires Invariant(models, w) && id !in w.clients && ClientOk(c)
    requires queue == w.queue || (id in queue && queue == w.queue[id := queue[id]] && Open(queue[id], c)
                                  && queue[id].s.draftSize == models.draftSize)
    ensures Invariant(models, Service(queue, w.clients[id := c]))
  {
    hide Open, ClientOk;
  }

  /** A client that was told nothing has been told nothing wrong. */
  lemma FailedClient(s: Setup)
    requires s.maxNew > 0
    ensures ClientOk(Client(s, [], Error))
  {
    assert s.Committed(0) == s.prompt == s.prompt + [];
  }

  /** A client whose request failed keeps what it was told. */
  lemma FailureFollows(c: Client)
    requires ClientOk(c)
    ensures ClientOk(c.Receive(Report([], Error)))
  {
    assert c.tokens + [] == c.tokens;
  }

  /** A request took its step, and its client has heard of it. */
  ghost predicate Went(q: Sequence, c: Client, c': Client)
    requires q.s.draftSize > 0 && q.Advance().Success?
  {
    var r := q.Advance().value;
    && ClientOk(c') && c'.status != Error && |c.tokens| < |c'.tokens|
    && (!r.stopped ==> Open(r.q, c') && r.q.s == q.s)
  }

  lemma RequestKeeps(q: Sequence, c: Client) returns (c': Client)
    requires ClientOk(c) && Open(q, c) && q.s.draftSize <= FILLER_COUNT + 1
    ensures q.Advance().Success? && c' == c.Receive(ReportOf(q.Advance().value)) && Went(q, c, c')
  {
    var n := |c.tokens|;
    var r := OpenAdvances(q, c);
    c' := c.Receive(ReportOf(r));
    ReportFollows(c, q, r, c', n, NextLength(c.s, n));
  }

  /** The clients after a decode step that raises nothing. */
  function Told(w: Service): map<nat, Client>
    requires Servable(w.queue) && forall id :: id in w.queue ==> w.queue[id].Advance().Success?
  {
    Deliver(w.clients, ReportsAfter(w.queue, w.queue.Keys))
  }

  lemma ToldAt(w: Service, id: nat)
    requires Servable(w.queue) && forall id :: id in w.queue ==> w.queue[id].Advance().Success?
    requires id in w.clients
    ensures id in Told(w)
    ensures Told(w)[id] == if id in w.queue then w.clients[id].Receive(ReportOf(w.queue[id].Advance().value)) else w.clients[id]
  {
    hide Sequence.Advance, ReportOf, Client.Receive;
  }

  lemma QueueAt(queue: Queue, id: nat)
    requires Servable(queue) && forall id :: id in queue ==> queue[id].Advance().Success?
    requires id in QueueAfter(queue, queue.Keys)
    ensures id in queue && !queue[id].Advance().value.stopped
    ensures QueueAfter(queue, queue.Keys)[id] == queue[id].Advance().value.q
  {
    hide Sequence.Advance;
  }

  lemma Advances(models: Models, w: Service)
    requires Invariant(models, w) && models.draftSize <= FILLER_COUNT + 1
    ensures Servable(w.queue) && forall id :: id in w.queue ==> w.queue[id].Advance().Success?
  {
    AdvanceIff(models, w);
  }

  /** A decode step that raises nothing: every request goes on or leaves, and every client hears of it. */
  lemma StepKeeps(models: Models, w: Service)
    requires Invariant(models, w) && models.draftSize <= FILLER_COUNT + 1
    requires Servable(w.queue) && forall id :: id in w.queue ==> w.queue[id].Advance().Success?
    ensures Invariant(models, Service(QueueAfter(w.queue, w.queue.Keys), Told(w)))
    ensures forall id :: id in w.queue ==>
      Told(w)[id].status != Error && |w.clients[id].tokens| < |Told(w)[id].tokens|
    ensures forall id :: id in w.clients && id !in w.queue ==> Told(w)[id] == w.clients[id]
  {
    hide Open, ClientOk, Sequence.Advance, Told, QueueAfter, Client.Receive, ReportOf;
    var queue, clients := QueueAfter(w.queue, w.queue.Keys), Told(w);
    forall id | id in w.clients
      ensures id in clients && ClientOk(clients[id])
      ensures id in w.queue ==> Went(w.queue[id], w.clients[id], clients[id])
      ensures id !in w.queue ==> clients[id] == w.clients[id]
    {
      ToldAt(w, id);
      if id in w.queue {
        var _ := RequestKeeps(w.queue[id], w.clients[id]);
      }
    }
    forall id | id in queue
      ensures id in clients && queue[id].s.draftSize == models.draftSize && Open(queue[id], clients[id])
    {
      QueueAt(w.queue, id);
      assert Went(w.queue[id], w.clients[id], clients[id]);
    }
    ToldNoMore(w);
  }

  lemma ToldNoMore(w: Service)
    requires Servable(w.queue) && forall id :: id in w.queue ==> w.queue[id].Advance().Success?
    ensures Told(w).Keys == w.clients.Keys
  {
    hide Sequence.Advance, ReportOf, Client.Receive;
  }

  /** A decode step that raises: the queue is empty, and all its clients are told. */
  lemma FailureKeeps(models: Models, w: Service)
    requires Invariant(models, w)
    ensures Invariant(models, Service(map[], Deliver(w.clients, Failed(w.queue))))
  {
    hide Open, ClientOk;
    forall id | id in w.queue
      ensures ClientOk(w.clients[id].Receive(Report([], Error)))
    {
      FailureFollows(w.clients[id]);
    }
  }

  lemma NextKeeps(models: Models, w: Service, action: Action)
    requires Invariant(models, w) && Possible(w, action)
    ensures Invariant(models, Next(models, w, action))
  {
    match action {
      case PrefillRequest(_, _, _, _, _) => PrefillKeeps(models, w, action);
      case DecodeStep(raises) =>
        AdvanceIff(models, w);
        FailureKeeps(models, w);
        if !raises && AllAdvance(w.queue) && w.queue != map[] {
          StepKeeps(models, w);
        }
      case Remove(_) =>
    }
  }

  // ----- every history -----

  /** Actions that can be taken one after the other. */
  ghost predicate Runs(models: Models, w: Service, actions: seq<Action>)
    decreases |actions|
  {
    actions == [] || (Possible(w, actions[0]) && Runs(models, Next(models, w, actions[0]), actions[1..]))
  }

  ghost function After(models: Models, w: Service, actions: seq<Action>): Service
    requires Runs(models, w, actions)
    decreases |actions|
  {
    if actions == [] then w else After(models, Next(models, w, actions[0]), actions[1..])
  }

  /** No request yet. */
  const NOBODY := Service(map[], map[])

  /**
   In every history, for any models and whatever goes wrong, every client has been told tokens of the
   target's own greedy stream and nothing else, and a completed one all tokens of its request.
   */
  lemma {:induction false} EveryHistory(models: Models, w: Service, actions: seq<Action>)
    requires Invariant(models, w) && Runs(models, w, actions)
    ensures Invariant(models, After(models, w, actions))
    decreases |actions|
  {
    hide Invariant, Next;
    if actions != [] {
      NextKeeps(models, w, actions[0]);
      EveryHistory(models, Next(models, w, actions[0]), actions[1..]);
    }
  }

  /** Nothing beyond the model goes wrong. */
  predicate Calm(action: Action) {
    match action
    case PrefillRequest(_, _, _, _, raises) => !raises
    case DecodeStep(raises) => !raises
    case Remove(_) => true
  }

  ghost predicate NoErrors(w: Service) {
    forall id :: id in w.clients ==> w.clients[id].status != Error
  }

  lemma CalmStep(models: Models, w: Service, action: Action)
    requires Invariant(models, w) && models.draftSize <= FILLER_COUNT + 1 && Possible(w, action) && Calm(action)
    requires NoErrors(w)
    ensures NoErrors(Next(models, w, action))
  {
    match action {
      case PrefillRequest(_, _, _, _, _) => PrefillKeeps(models, w, action);
      case DecodeStep(_) =>
        AdvanceIff(models, w);
        Advances(models, w);
        StepKeeps(models, w);
      case Remove(_) =>
    }
  }

  lemma {:induction false} CalmHistory(models: Models, w: Service, actions: seq<Action>)
    requires Invariant(models, w) && models.draftSize <= FILLER_COUNT + 1 && Runs(models, w, actions) && NoErrors(w)
    requires forall action :: action in actions ==> Calm(action)
    ensures NoErrors(After(models, w, actions))
    decreases |actions|
  {
    hide Invariant, Next, NoErrors, Calm;
    if actions != [] {
      CalmStep(models, w, actions[0]);
      NextKeeps(models, w, actions[0]);
      CalmHistory(models, Next(models, w, actions[0]), actions[1..]);
    }
  }

  /** Histories without exceptions from outside, from the start on. */
  ghost predicate CalmFromStart(models: Models, actions: seq<Action>) {
    Runs(models, NOBODY, actions) && forall action :: action in actions ==> Calm(action)
  }

  /**
   The server serves every history without an error, for the given models, exactly when at most 33 tokens
   are proposed: beyond that the first decode step of any request that goes on ends it.
   */
  lemma ServesAll(models: Models)
    requires models.draftSize > 0
    ensures (forall actions :: CalmFromStart(models, actions) ==> NoErrors(After(models, NOBODY, actions)))
            <==> models.draftSize <= FILLER_COUNT + 1
  {
    if models.draftSize <= FILLER_COUNT + 1 {
      forall actions | CalmFromStart(models, actions)
        ensures NoErrors(After(models, NOBODY, actions))
      {
        CalmHistory(models, NOBODY, actions);
      }
    } else {
      var actions := [PrefillRequest(0, [0], 2, {}, false), DecodeStep(false)];
      SecondActionFails(models, actions);
      assert CalmFromStart(models, actions);
    }
  }

  lemma SecondActionFails(models: Models, actions: seq<Action>)
    requires models.draftSize > FILLER_COUNT + 1 && actions == [PrefillRequest(0, [0], 2, {}, false), DecodeStep(false)]
    ensures Runs(models, NOBODY, actions) && !NoErrors(After(models, NOBODY, actions))
  {
    FirstActionQueues(models, actions[0]);
    var w := Next(models, NOBODY, actions[0]);
    AdvanceIff(models, w);
    DecodeFails(models, w);
    TwoActions(models, NOBODY, actions[0], actions[1]);
    assert actions == [actions[0], actions[1]];
    hide Next;
  }

  lemma TwoActions(models: Models, w: Service, first: Action, second: Action)
    requires Possible(w, first) && Possible(Next(models, w, first), second)
    ensures Runs(models, w, [first, second])
    ensures After(models, w, [first, second]) == Next(models, Next(models, w, first), second)
  {
    hide Next;
    var v := Next(models, w, first);
    var last := Next(models, v, second);
    assert [second][1..] == [] && Runs(models, last, []) && After(models, last, []) == last;
    assert Runs(models, v, [second]) && After(models, v, [second]) == last;
    assert [first, second][1..] == [second];
  }

  lemma FirstActionQueues(models: Models, action: Action)
    requires models.draftSize > 0 && action == PrefillRequest(0, [0], 2, {}, false)
    ensures Possible(NOBODY, action)
    ensures var w := Next(models, NOBODY, action); Invariant(models, w) && 0 in w.queue && 0 in w.clients
  {
    var s := models.SetupOf([0], 2, {});
    var r := PrefillFollows(0, s);
    assert !r.stopped;
    hide SteppedTo, Live, Prefilled, Open, ClientOk, Invariant;
    PrefillKeeps(models, NOBODY, action) by {
      NobodyYet(models);
    }
  }

  lemma NobodyYet(models: Models)
    requires models.draftSize > 0
    ensures Invariant(models, NOBODY)
  {
  }

  lemma DecodeFails(models: Models, w: Service)
    requires 0 in w.queue && 0 in w.clients && Servable(w.queue) && !AllAdvance(w.queue)
    ensures Next(models, w, DecodeStep(false)).clients[0].status == Error
  {
  }

  // ----- what each client was told, in terms of its request -----

  /** What the client of a request has been told: the target's own continuation of its prompt, within its limit. */
  ghost predicate Answered(models: Models, request: Action, c: Client)
    requires request.PrefillRequest?
  {
    var s := Setup(models.target, models.draft, models.pardToken, models.draftSize, request.prompt, request.maxNew, request.eos);
    && request.prompt + c.tokens == Continue(models.target, request.prompt, |c.tokens|)
    && |c.tokens| <= request.maxNew
    && (c.status.Completed? ==>
          && |c.tokens| == ServedLength(s)
          && c.status.reason == if |c.tokens| >= request.maxNew then Length else Stop)
  }

  lemma NextKeepsClient(models: Models, w: Service, action: Action, id: nat)
    requires Possible(w, action) && id in w.clients
    ensures id in Next(models, w, action).clients && Next(models, w, action).clients[id].s == w.clients[id].s
  {
    hide Prefilled, AllAdvance, QueueAfter, ReportsAfter, Failed;
  }

  lemma NextAddsClient(models: Models, w: Service, request: Action)
    requires request.PrefillRequest? && Possible(w, request)
    ensures var v := Next(models, w, request);
            && request.id in v.clients
            && v.clients[request.id].s
               == Setup(models.target, models.draft, models.pardToken, models.draftSize, request.prompt, request.maxNew, request.eos)
  {
    hide Prefilled;
  }

  /** A client keeps its request whatever happens afterwards. */
  lemma {:induction false} ClientStays(models: Models, w: Service, actions: seq<Action>, id: nat)
    requires Runs(models, w, actions) && id in w.clients
    ensures id in After(models, w, actions).clients && After(models, w, actions).clients[id].s == w.clients[id].s
    decreases |actions|
  {
    hide Next;
    if actions != [] {
      NextKeepsClient(models, w, actions[0], id);
      ClientStays(models, Next(models, w, actions[0]), actions[1..], id);
    }
  }

  /** The client of a request has the request's own fields and the server's models. */
  lemma {:induction false} ClientOfRequest(models: Models, w: Service, actions: seq<Action>, i: nat)
    requires Runs(models, w, actions) && i < |actions| && actions[i].PrefillRequest?
    ensures var request, v := actions[i], After(models, w, actions);
            && request.id in v.clients
            && v.clients[request.id].s
               == Setup(models.target, models.draft, models.pardToken, models.draftSize, request.prompt, request.maxNew, request.eos)
    decreases |actions|
  {
    hide Next, Possible;
    var v := Next(models, w, actions[0]);
    if i == 0 {
      NextAddsClient(models, w, actions[0]);
      ClientStays(models, v, actions[1..], actions[0].id);
    } else {
      assert actions[1..][i - 1] == actions[i];
      ClientOfRequest(models, v, actions[1..], i - 1);
    }
  }

  lemma ClientAnswered(models: Models, request: Action, c: Client)
    requires request.PrefillRequest? && ClientOk(c)
    requires c.s == Setup(models.target, models.draft, models.pardToken, models.draftSize, request.prompt, request.maxNew, request.eos)
    ensures Answered(models, request, c)
  {
    ServedExtendsPlain(c.s);
  }

  /**
   After every history, for any models and whatever goes wrong: the client of each request has been told the
   target's own greedy continuation of the prompt it asked with, no more than it asked for, and all of it, with
   the reason, when its request is complete.
   */
  lemma EveryRequest(models: Models, actions: seq<Action>, i: nat)
    requires models.draftSize > 0 && Runs(models, NOBODY, actions) && i < |actions| && actions[i].PrefillRequest?
    ensures actions[i].id in After(models, NOBODY, actions).clients
    ensures Answered(models, actions[i], After(models, NOBODY, actions).clients[actions[i].id])
  {
    NobodyYet(models);
    EveryHistory(models, NOBODY, actions);
    ClientOfRequest(models, NOBODY, actions, i);
    var c := After(models, NOBODY, actions).clients[actions[i].id];
    assert ClientOk(c);
    hide *;
    ClientAnswered(models, actions[i], c);
  }

  // ----- every request ends -----

  /** Every request of the queue has had at least `told` tokens, and wants at most `limit`. */
  ghost predicate Bounded(w: Service, told: nat, limit: nat) {
    forall id :: id in w.queue ==> id in w.clients && told <= |w.clients[id].tokens| && w.queue[id].s.maxNew <= limit
  }

  function Decodes(n: nat): (actions: seq<Action>)
    ensures |actions| == n
  {
    seq(n, _ => DecodeStep(false))
  }

  lemma CalmDecode(models: Models, w: Service)
    requires Invariant(models, w) && models.draftSize <= FILLER_COUNT + 1
    ensures Possible(w, DecodeStep(false)) && forall id :: id in w.queue ==> w.queue[id].Advance().Success?
    ensures Next(models, w, DecodeStep(false)) == Service(QueueAfter(w.queue, w.queue.Keys), Told(w))
  {
    AdvanceIff(models, w);
    Advances(models, w);
    hide Open, ClientOk, Sequence.Advance, Deliver, QueueAfter, ReportsAfter;
  }

  lemma DecodeRaises(models: Models, w: Service, told: nat, limit: nat)
    requires Invariant(models, w) && models.draftSize <= FILLER_COUNT + 1 && Bounded(w, told, limit)
    ensures Possible(w, DecodeStep(false))
    ensures var v := Next(models, w, DecodeStep(false)); Invariant(models, v) && Bounded(v, told + 1, limit)
  {
    CalmDecode(models, w);
    StepKeeps(models, w);
    hide Next, Invariant, Told, QueueAfter;
    BoundedNext(models, w, told, limit);
  }

  lemma BoundedNext(models: Models, w: Service, told: nat, limit: nat)
    requires Invariant(models, w) && models.draftSize <= FILLER_COUNT + 1 && Bounded(w, told, limit)
    requires Servable(w.queue) && forall id :: id in w.queue ==> w.queue[id].Advance().Success?
    requires forall id :: id in w.queue ==> id in Told(w) && |w.clients[id].tokens| < |Told(w)[id].tokens|
    ensures Bounded(Service(QueueAfter(w.queue, w.queue.Keys), Told(w)), told + 1, limit)
  {
    hide Open, ClientOk, Sequence.Advance, Told, QueueAfter, Client.Receive, ReportOf;
    var queue := QueueAfter(w.queue, w.queue.Keys);
    forall id | id in queue
      ensures id in Told(w) && told + 1 <= |Told(w)[id].tokens| && queue[id].s.maxNew <= limit
    {
      QueueAt(w.queue, id);
      SameLimit(w.queue[id], w.clients[id]);
    }
  }

  lemma SameLimit(q: Sequence, c: Client)
    requires ClientOk(c) && Open(q, c) && q.s.draftSize <= FILLER_COUNT + 1
    ensures q.Advance().Success? && q.Advance().value.q.s == q.s
  {
    var _ := OpenAdvances(q, c);
  }

  /** The client of a request has been told that it is complete. */
  ghost predicate IsComplete(w: Service, id: nat) {
    id in w.clients && w.clients[id].status.Completed?
  }

  /** A step either keeps a request in the queue or tells its client that it is complete. */
  lemma StepEnds(models: Models, w: Service, id: nat)
    requires Invariant(models, w) && models.draftSize <= FILLER_COUNT + 1 && id in w.queue
    ensures Possible(w, DecodeStep(false))
    ensures var v := Next(models, w, DecodeStep(false));
            id in v.queue || IsComplete(v, id)
  {
    CalmDecode(models, w);
    hide Sequence.Advance, Told, Open, ClientOk, Next;
    ToldAt(w, id);
  }

  lemma StepRests(models: Models, w: Service, id: nat)
    requires Invariant(models, w) && models.draftSize <= FILLER_COUNT + 1 && id in w.clients && id !in w.queue
    ensures Possible(w, DecodeStep(false))
    ensures var v := Next(models, w, DecodeStep(false));
            Invariant(models, v) && id in v.clients && id !in v.queue && v.clients[id] == w.clients[id]
  {
    CalmDecode(models, w);
    StepKeeps(models, w);
    hide Sequence.Advance, Told, Open, ClientOk, Next;
    ToldAt(w, id);
  }

  /** Later steps do not touch a client whose request has left the queue. */
  lemma {:induction false} Rests(models: Models, w: Service, id: nat, n: nat)
    requires Invariant(models, w) && models.draftSize <= FILLER_COUNT + 1 && id in w.clients && id !in w.queue
    requires Runs(models, w, Decodes(n))
    ensures id in After(models, w, Decodes(n)).clients && After(models, w, Decodes(n)).clients[id] == w.clients[id]
    decreases n
  {
    if n > 0 {
      StepRests(models, w, id);
      assert Decodes(n)[0] == DecodeStep(false) && Decodes(n)[1..] == Decodes(n - 1);
      hide Invariant, Next;
      Rests(models, Next(models, w, DecodeStep(false)), id, n - 1);
    }
  }

  /**
   Every request is complete after as many decode steps as the largest limit in the queue, if nothing goes
   wrong, and its client has been told so: none of them starves or gets lost.
   */
  lemma {:induction false} QueueDrains(models: Models, w: Service, told: nat, limit: nat, n: nat)
    requires Invariant(models, w) && models.draftSize <= FILLER_COUNT + 1 && Bounded(w, told, limit)
    requires told + n >= limit
    ensures Runs(models, w, Decodes(n)) && After(models, w, Decodes(n)).queue == map[]
    ensures forall id :: id in w.queue ==> IsComplete(After(models, w, Decodes(n)), id)
    decreases n
  {
    if n == 0 {
      NoneLeft(models, w, told, limit);
    } else {
      hide Invariant, Next, Bounded, IsComplete;
      DecodeRaises(models, w, told, limit);
      var v := Next(models, w, DecodeStep(false));
      QueueDrains(models, v, told + 1, limit, n - 1);
      assert Decodes(n)[0] == DecodeStep(false) && Decodes(n)[1..] == Decodes(n - 1);
      forall id | id in w.queue
        ensures IsComplete(After(models, v, Decodes(n - 1)), id)
      {
        StepEnds(models, w, id);
        if id !in v.queue {
          StaysComplete(models, v, id, n - 1);
        }
      }
    }
  }

  lemma StaysComplete(models: Models, w: Service, id: nat, n: nat)
    requires Invariant(models, w) && models.draftSize <= FILLER_COUNT + 1 && id !in w.queue && IsComplete(w, id)
    requires Runs(models, w, Decodes(n))
    ensures IsComplete(After(models, w, Decodes(n)), id)
  {
    hide Invariant, Runs, After;
    Rests(models, w, id, n);
  }

  lemma NoneLeft(models: Models, w: Service, told: nat, limit: nat)
    requires Invariant(models, w) && Bounded(w, told, limit) && told >= limit
    ensures w.queue == map[]
  {
  }

  // ----- nobody gets lost -----

  /** A client whose request is in the queue, for at most `limit` tokens, or complete. */
  ghost predicate LookedAfter(w: Service, id: nat, limit: nat) {
    if id in w.queue then w.queue[id].s.maxNew <= limit else IsComplete(w, id)
  }

  ghost predicate AllLookedAfter(w: Service, limit: nat) {
    forall id :: id in w.clients ==> LookedAfter(w, id, limit)
  }

  /** Nobody cancels, nothing goes wrong outside, and nobody asks for more than `limit` tokens. */
  predicate Orderly(action: Action, limit: nat) {
    Calm(action) && !action.Remove? && (action.PrefillRequest? ==> action.maxNew <= limit)
  }

  lemma PrefillLooksAfter(models: Models, w: Service, action: Action, limit: nat)
    requires Invariant(models, w) && action.PrefillRequest? && Possible(w, action) && Orderly(action, limit)
    requires AllLookedAfter(w, limit)
    ensures AllLookedAfter(Next(models, w, action), limit)
  {
    var r := PrefillFollows(action.id, models.SetupOf(action.prompt, action.maxNew, action.eos));
    assert r.q.s.maxNew == action.maxNew;
    hide Prefilled, Open, ClientOk, Live, SteppedTo;
    var v := Next(models, w, action);
    forall id | id in v.clients
      ensures LookedAfter(v, id, limit)
    {
      assert id != action.id ==> LookedAfter(w, id, limit);
    }
  }

  lemma DecodeLooksAfter(models: Models, w: Service, limit: nat)
    requires Invariant(models, w) && models.draftSize <= FILLER_COUNT + 1 && AllLookedAfter(w, limit)
    ensures Possible(w, DecodeStep(false)) && AllLookedAfter(Next(models, w, DecodeStep(false)), limit)
  {
    CalmDecode(models, w);
    var v := Next(models, w, DecodeStep(false));
    hide Next, Open, ClientOk, Told, QueueAfter, Sequence.Advance, LookedAfter, IsComplete;
    ToldNoMore(w);
    forall id | id in v.clients
      ensures LookedAfter(v, id, limit)
    {
      assert LookedAfter(w, id, limit);
      ClientLookedAfter(models, w, id, limit);
    }
  }

  lemma ClientLookedAfter(models: Models, w: Service, id: nat, limit: nat)
    requires Invariant(models, w) && models.draftSize <= FILLER_COUNT + 1 && id in w.clients && LookedAfter(w, id, limit)
    ensures Possible(w, DecodeStep(false)) && LookedAfter(Next(models, w, DecodeStep(false)), id, limit)
  {
    if id in w.queue {
      StepEnds(models, w, id);
      StepLimit(models, w, id);
    } else {
      StepRests(models, w, id);
    }
    hide Next, Invariant;
  }

  lemma StepLimit(models: Models, w: Service, id: nat)
    requires Invariant(models, w) && models.draftSize <= FILLER_COUNT + 1 && id in w.queue
    ensures Possible(w, DecodeStep(false))
    ensures var v := Next(models, w, DecodeStep(false)); id in v.queue ==> v.queue[id].s.maxNew == w.queue[id].s.maxNew
  {
    CalmDecode(models, w);
    SameLimit(w.queue[id], w.clients[id]);
    hide Next, Open, ClientOk, Told, QueueAfter, Sequence.Advance;
    if id in QueueAfter(w.queue, w.queue.Keys) {
      QueueAt(w.queue, id);
    }
  }

  lemma {:induction false} OrderlyHistory(models: Models, w: Service, actions: seq<Action>, limit: nat)
    requires Invariant(models, w) && models.draftSize <= FILLER_COUNT + 1 && Runs(models, w, actions) && AllLookedAfter(w, limit)
    requires forall action :: action in actions ==> Orderly(action, limit)
    ensures AllLookedAfter(After(models, w, actions), limit)
    decreases |actions|
  {
    hide Invariant, Next, AllLookedAfter;
    if actions != [] {
      if actions[0].PrefillRequest? {
        PrefillLooksAfter(models, w, actions[0], limit);
      } else {
        DecodeLooksAfter(models, w, limit);
      }
      NextKeeps(models, w, actions[0]);
      OrderlyHistory(models, Next(models, w, actions[0]), actions[1..], limit);
    }
  }

  lemma {:induction false} RunsOn(models: Models, w: Service, actions: seq<Action>, more: seq<Action>)
    requires Runs(models, w, actions) && Runs(models, After(models, w, actions), more)
    ensures Runs(models, w, actions + more)
    ensures After(models, w, actions + more) == After(models, After(models, w, actions), more)
    decreases |actions|
  {
    hide Next, Possible;
    if actions == [] {
      assert actions + more == more;
    } else {
      assert (actions + more)[0] == actions[0] && (actions + more)[1..] == actions[1..] + more;
      RunsOn(models, Next(models, w, actions[0]), actions[1..], more);
    }
  }

  /**
   Every request is answered in full: after any orderly history and as many decode steps as the largest limit,
   up to 33 tokens a proposal, every client has been told that its request is complete, and with it all of the
   target's continuation that is due.
   */
  lemma EveryRequestCompletes(models: Models, actions: seq<Action>, limit: nat, i: nat)
    requires 0 < models.draftSize <= FILLER_COUNT + 1 && Runs(models, NOBODY, actions)
    requires forall action :: action in actions ==> Orderly(action, limit)
    requires i < |actions| && actions[i].PrefillRequest?
    ensures Runs(models, NOBODY, actions + Decodes(limit))
    ensures var w := After(models, NOBODY, actions + Decodes(limit));
            && actions[i].id in w.clients && Answered(models, actions[i], w.clients[actions[i].id])
            && w.clients[actions[i].id].status.Completed?
  {
    NobodyYet(models);
    var w, id := After(models, NOBODY, actions), actions[i].id;
    EveryHistory(models, NOBODY, actions);
    OrderlyHistory(models, NOBODY, actions, limit);
    ClientOfRequest(models, NOBODY, actions, i);
    WithinLimit(models, w, limit);
    QueueDrains(models, w, 0, limit, limit);
    RunsOn(models, NOBODY, actions, Decodes(limit));
    assert (actions + Decodes(limit))[i] == actions[i];
    EveryRequest(models, actions + Decodes(limit), i);
    hide Invariant, Next, Answered, Runs, After;
    assert LookedAfter(w, id, limit);
    if id !in w.queue {
      StaysComplete(models, w, id, limit);
    }
  }

  lemma WithinLimit(models: Models, w: Service, limit: nat)
    requires Invariant(models, w) && AllLookedAfter(w, limit)
    ensures Bounded(w, 0, limit)
  {
    hide Open, ClientOk;
    forall id | id in w.queue
      ensures id in w.clients && w.queue[id].s.maxNew <= limit
    {
      assert LookedAfter(w, id, limit);
    }
  }

  // ----- the executor does all this -----

  function ModelsOf(executor: ModelExecutor): Models {
    Models(executor.target, executor.draft, executor.pardToken, executor.draftSize)
  }

  /** One action on the executor, and what the clients hear of it. */
  method Perform(executor: ModelExecutor, clients: map<nat, Client>, action: Action) returns (told: map<nat, Client>)
    requires Possible(Service(executor.decodeQueue, clients), action)
    modifies executor
    ensures Service(executor.decodeQueue, told)
            == Next(ModelsOf(executor), Service(old(executor.decodeQueue), clients), action)
  {
    hide AllAdvance, Prefilled, QueueAfter, ReportsAfter, Failed, Deliver;
    match action {
      case PrefillRequest(id, prompt, maxNew, eos, raises) =>
        var report := executor.Prefill(id, prompt, maxNew, eos, raises);
        var s := executor.SetupOf(prompt, maxNew, eos);
        assert Client(s, [], PrefillCompleted).Receive(Report([], Error)) == Client(s, [], Error);
        told := clients[id := Client(s, [], PrefillCompleted).Receive(report)];
      case DecodeStep(raises) =>
        var reports := executor.Decode(raises);
        told := Deliver(clients, reports);
      case Remove(ids) =>
        executor.RemoveSequences(ids);
        told := clients;
    }
  }

  /**
   A server from its start on, for any models and any possible actions: its clients are told what they are
   due, and without exceptions from outside, up to 33 tokens a proposal, never an error.
   */
  method Serve(models: Models, actions: seq<Action>) returns (clients: map<nat, Client>)
    requires models.draftSize > 0 && Runs(models, NOBODY, actions)
    ensures clients == After(models, NOBODY, actions).clients
    ensures forall i :: 0 <= i < |actions| && actions[i].PrefillRequest? ==>
      actions[i].id in clients && Answered(models, actions[i], clients[actions[i].id])
    ensures forall id :: id in clients ==> ClientOk(clients[id])
    ensures models.draftSize <= FILLER_COUNT + 1 && CalmFromStart(models, actions) ==>
      forall id :: id in clients ==> clients[id].status != Error
  {
    hide Invariant, Next, ClientOk, Possible, Answered;
    var executor := new ModelExecutor(models.target, models.draft, models.pardToken, models.draftSize);
    clients := map[];
    ghost var start := NOBODY;
    NobodyYet(models);
    ServedWell(models, actions);
    for i := 0 to |actions|
      invariant ModelsOf(executor) == models
      invariant Runs(models, Service(executor.decodeQueue, clients), actions[i..])
      invariant After(models, Service(executor.decodeQueue, clients), actions[i..]) == After(models, NOBODY, actions)
    {
      assert actions[i..][0] == actions[i] && actions[i..][1..] == actions[i + 1..];
      clients := Perform(executor, clients, actions[i]);
    }
  }

  lemma ServedWell(models: Models, actions: seq<Action>)
    requires models.draftSize > 0 && Runs(models, NOBODY, actions)
    ensures forall i :: 0 <= i < |actions| && actions[i].PrefillRequest? ==>
      && actions[i].id in After(models, NOBODY, actions).clients
      && Answered(models, actions[i], After(models, NOBODY, actions).clients[actions[i].id])
    ensures forall id :: id in After(models, NOBODY, actions).clients ==> ClientOk(After(models, NOBODY, actions).clients[id])
    ensures models.draftSize <= FILLER_COUNT + 1 && CalmFromStart(models, actions) ==>
      NoErrors(After(models, NOBODY, actions))
  {
    EveryHistory(models, NOBODY, actions);
    ServesAll(models);
    hide Next, Possible, ClientOk, Answered, Open;
    forall i | 0 <= i < |actions| && actions[i].PrefillRequest?
      ensures actions[i].id in After(models, NOBODY, actions).clients
      ensures Answered(models, actions[i], After(models, NOBODY, actions).clients[actions[i].id])
    {
      EveryRequest(models, actions, i);
    }
  }
}
