// Approval receipts: a user's approval of one action on one resource with one payload becomes a
// receipt that backs at most one successful commit before it expires (server/agent/engine.go).
// Payloads are compared by canonical form: the source's hash of that form is taken to be injective.
module Receipts {
  import opened Strings

  /** The canonical form of a JSON text, if it is one. */
  datatype Canonical = Invalid | Form(text: string)

  type Canon = string -> Canonical

  datatype Authorization = Unrequested | Requested(action: string, resource: string, payload: string)

  datatype Ask = Ask(id: string, authorization: Authorization)

  /** A user's answer: free text, or an exact decision about an action on a resource. */
  datatype Response = Plain(text: string) | Decision(approve: bool, action: string, resource: string)

  datatype Receipt = Receipt(askId: string, actor: string, action: string, resource: string, form: string, expires: nat, consumed: bool)

  datatype Outcome = Outcome(approved: bool, receiptId: string)

  /** A result given to an ask: the answer, and the receipt it issued, "" for none. */
  datatype Given = Given(ask: Ask, response: Response, receiptId: string)

  datatype Committed = Committed(receiptId: string, action: string, resource: string, payload: string, at: nat)

  /** `pending` are the asks of the latest turn that has any; the sequences record what has happened. */
  datatype State = State(
    pending: seq<Ask>, answered: set<string>, receipts: map<string, Receipt>, now: nat,
    given: seq<Given>, issued: map<string, Receipt>, commits: seq<Committed>)

  const START := State([], {}, map[], 0, [], map[], [])

  const LIFETIME: nat := 1800

  function Expired(r: Receipt, now: nat): bool {
    now > r.expires
  }

  function Purged(receipts: map<string, Receipt>, now: nat): map<string, Receipt> {
    map id | id in receipts && !Expired(receipts[id], now) :: receipts[id]
  }

  // ----- answering -----

  datatype Decided = Undecided | Decided(approve: bool)

  /** What an answer says of an authorization request: it must name exactly that action and resource. */
  function DecisionOf(response: Response, request: Authorization): Decided {
    match request
    case Unrequested => Decided(false)
    case Requested(action, resource, _) =>
      if response.Decision? && response.action == action && response.resource == resource then Decided(response.approve)
      else Undecided
  }

  predicate Answerable(canon: Canon, s: State, response: Response, actor: string) {
    && actor != "" && TrimSpace(actor) == actor
    && |s.pending| == 1 && s.pending[0].id !in s.answered
    && var d := DecisionOf(response, s.pending[0].authorization);
       d.Decided? && (d.approve ==> canon(s.pending[0].authorization.payload).Form?)
  }

  predicate Approves(s: State, response: Response)
    requires |s.pending| == 1
  {
    DecisionOf(response, s.pending[0].authorization) == Decided(true)
  }

  function Issue(canon: Canon, s: State, actor: string): Receipt
    requires |s.pending| == 1 && s.pending[0].authorization.Requested?
    requires canon(s.pending[0].authorization.payload).Form?
  {
    var ask := s.pending[0];
    var a := ask.authorization;
    Receipt(ask.id, actor, a.action, a.resource, canon(a.payload).text, s.now + LIFETIME, false)
  }

  // ----- using a receipt -----

  predicate Exact(text: string) {
    text != "" && TrimSpace(text) == text
  }

  /** The receipt authorizes exactly this action, resource and payload, now. */
  predicate Authorizes(canon: Canon, receipts: map<string, Receipt>, now: nat, id: string, action: string, resource: string, payload: string) {
    && id in receipts && !receipts[id].consumed && !Expired(receipts[id], now)
    && receipts[id].action == action && receipts[id].resource == resource
    && canon(payload) == Form(receipts[id].form)
  }

  /** A receipt found unconsumed and past its time is dropped on the spot. */
  function Dropped(receipts: map<string, Receipt>, now: nat, id: string): map<string, Receipt> {
    if id in receipts && !receipts[id].consumed && Expired(receipts[id], now) then receipts - {id} else receipts
  }

  predicate CanCommit(canon: Canon, s: State, id: string, action: string, resource: string, payload: string) {
    Exact(id) && Exact(action) && Exact(resource) && Authorizes(canon, s.receipts, s.now, id, action, resource, payload)
  }

  // ----- the steps -----

  datatype Action =
    | Suspend(ask: Ask)
    | Answer(response: Response, actor: string, newId: string)
    | Abandon(id: string)
    | Wait(ticks: nat)
    | Verify(id: string, action: string, resource: string, payload: string)
    | Commit(id: string, action: string, resource: string, payload: string, succeeds: bool)

  /** Receipt ids come from a generator that never repeats one. */
  predicate Enabled(s: State, a: Action) {
    match a
    case Answer(_, _, newId) => newId !in s.issued && Exact(newId)
    case _ => true
  }

  function Step(canon: Canon, s: State, a: Action): State
    requires Enabled(s, a)
  {
    match a
    case Suspend(ask) => s.(pending := [ask])
    case Answer(response, actor, newId) =>
      if !Exact(actor) then s
      else
        var purged := s.(receipts := Purged(s.receipts, s.now));
        if !Answerable(canon, s, response, actor) then purged
        else
          var ask := s.pending[0];
          if Approves(s, response) then
            var r := Issue(canon, s, actor);
            purged.(receipts := purged.receipts[newId := r], issued := s.issued[newId := r],
                    answered := s.answered + {ask.id}, given := s.given + [Given(ask, response, newId)])
          else purged.(answered := s.answered + {ask.id}, given := s.given + [Given(ask, response, "")])
    case Abandon(id) => s.(answered := s.answered + {id})
    case Wait(ticks) => s.(now := s.now + ticks)
    case Verify(id, action, resource, payload) =>
      if !Exact(id) then s else s.(receipts := Dropped(s.receipts, s.now, id))
    case Commit(id, action, resource, payload, succeeds) =>
      if !Exact(id) || !Exact(action) || !Exact(resource) then s
      else if CanCommit(canon, s, id, action, resource, payload) && succeeds then
        s.(receipts := s.receipts[id := s.receipts[id].(consumed := true)],
           commits := s.commits + [Committed(id, action, resource, payload, s.now)])
      else s.(receipts := Dropped(s.receipts, s.now, id))
  }

  // ----- what every run keeps -----

  predicate SameButUse(r: Receipt, q: Receipt) {
    r == q.(consumed := r.consumed)
  }

  predicate CommitIsBacked(canon: Canon, issued: map<string, Receipt>, c: Committed) {
    && c.receiptId in issued
    && issued[c.receiptId].action == c.action && issued[c.receiptId].resource == c.resource
    && canon(c.payload) == Form(issued[c.receiptId].form) && c.at <= issued[c.receiptId].expires
  }

  /** Each ask was given at most one result, and every ask given one is answered. */
  predicate GivenOnce(given: seq<Given>, answered: set<string>) {
    && (forall i, j :: 0 <= i < j < |given| ==> given[i].ask.id != given[j].ask.id)
    && (forall g :: g in given ==> g.ask.id in answered)
  }

  /** This answer approved the very action, resource and payload the receipt names. */
  predicate Grants(canon: Canon, g: Given, id: string, r: Receipt) {
    && g.receiptId == id && r.askId == g.ask.id
    && g.ask.authorization.Requested?
    && g.response == Decision(true, g.ask.authorization.action, g.ask.authorization.resource)
    && r.action == g.ask.authorization.action && r.resource == g.ask.authorization.resource
    && canon(g.ask.authorization.payload) == Form(r.form)
  }

  predicate Granted(canon: Canon, given: seq<Given>, id: string, r: Receipt) {
    exists i :: 0 <= i < |given| && Grants(canon, given[i], id, r)
  }

  /** Every receipt held was issued as it is, and every one issued was granted by an answer. */
  predicate AllIssued(canon: Canon, receipts: map<string, Receipt>, issued: map<string, Receipt>, given: seq<Given>) {
    && (forall id :: id in receipts ==> id in issued && SameButUse(receipts[id], issued[id]))
    && (forall id :: id in issued ==> Granted(canon, given, id, issued[id]))
  }

  predicate Backed(canon: Canon, receipts: map<string, Receipt>, issued: map<string, Receipt>, commits: seq<Committed>) {
    && (forall c :: c in commits ==> CommitIsBacked(canon, issued, c))
    && (forall i, j :: 0 <= i < j < |commits| ==> commits[i].receiptId != commits[j].receiptId)
    && (forall c :: c in commits && c.receiptId in receipts ==> receipts[c.receiptId].consumed)
  }

  ghost predicate Inv(canon: Canon, s: State) {
    && GivenOnce(s.given, s.answered)
    && AllIssued(canon, s.receipts, s.issued, s.given)
    && Backed(canon, s.receipts, s.issued, s.commits)
  }

  lemma GiveOne(given: seq<Given>, answered: set<string>, g: Given)
    requires GivenOnce(given, answered) && g.ask.id !in answered
    ensures GivenOnce(given + [g], answered + {g.ask.id})
  {
    var more := given + [g];
    forall i, j | 0 <= i < j < |more| ensures more[i].ask.id != more[j].ask.id {
      assert more[i] in given;
    }
  }

  lemma StillGranted(canon: Canon, given: seq<Given>, g: Given, id: string, r: Receipt)
    requires Granted(canon, given, id, r)
    ensures Granted(canon, given + [g], id, r)
  {
    var i :| 0 <= i < |given| && Grants(canon, given[i], id, r);
    assert (given + [g])[i] == given[i];
  }

  lemma IssueOne(canon: Canon, s: State, g: Given, r: Receipt)
    requires AllIssued(canon, s.receipts, s.issued, s.given) && Backed(canon, s.receipts, s.issued, s.commits)
    requires g.receiptId !in s.issued && Grants(canon, g, g.receiptId, r)
    ensures var kept := Purged(s.receipts, s.now); var newId := g.receiptId;
            && AllIssued(canon, kept[newId := r], s.issued[newId := r], s.given + [g])
            && Backed(canon, kept[newId := r], s.issued[newId := r], s.commits)
  {
    var issued := s.issued[g.receiptId := r];
    forall id | id in issued ensures Granted(canon, s.given + [g], id, issued[id]) {
      if id == g.receiptId {
        assert Grants(canon, (s.given + [g])[|s.given|], id, r);
      } else {
        StillGranted(canon, s.given, g, id, s.issued[id]);
      }
    }
    forall c | c in s.commits ensures CommitIsBacked(canon, issued, c) {
      assert CommitIsBacked(canon, s.issued, c);
    }
  }

  lemma GiveKeepsIssued(canon: Canon, s: State, g: Given)
    requires AllIssued(canon, s.receipts, s.issued, s.given)
    ensures AllIssued(canon, Purged(s.receipts, s.now), s.issued, s.given + [g])
  {
    forall id | id in s.issued ensures Granted(canon, s.given + [g], id, s.issued[id]) {
      StillGranted(canon, s.given, g, id, s.issued[id]);
    }
  }

  lemma AnswerKeeps(canon: Canon, s: State, response: Response, actor: string, newId: string)
    requires Inv(canon, s) && Enabled(s, Answer(response, actor, newId)) && Answerable(canon, s, response, actor)
    ensures Inv(canon, Step(canon, s, Answer(response, actor, newId)))
  {
    var approves := Approves(s, response);
    var g := Given(s.pending[0], response, if approves then newId else "");
    GiveOne(s.given, s.answered, g);
    if approves {
      IssueOne(canon, s, g, Issue(canon, s, actor));
    } else {
      GiveKeepsIssued(canon, s, g);
    }
  }

  lemma CommitKeeps(canon: Canon, s: State, a: Action)
    requires Inv(canon, s) && a.Commit? && a.succeeds && CanCommit(canon, s, a.id, a.action, a.resource, a.payload)
    ensures Inv(canon, Step(canon, s, a))
  {
    var s' := Step(canon, s, a);
    var c := Committed(a.id, a.action, a.resource, a.payload, s.now);
    assert s'.commits == s.commits + [c];
    assert SameButUse(s.receipts[a.id], s.issued[a.id]);
    forall i, j | 0 <= i < j < |s'.commits| ensures s'.commits[i].receiptId != s'.commits[j].receiptId {
      assert s'.commits[i] in s.commits;
    }
  }

  lemma StepKeeps(canon: Canon, s: State, a: Action)
    requires Inv(canon, s) && Enabled(s, a)
    ensures Inv(canon, Step(canon, s, a))
  {
    match a
    case Answer(response, actor, newId) =>
      if Answerable(canon, s, response, actor) {
        AnswerKeeps(canon, s, response, actor, newId);
      }
    case Commit(id, action, resource, payload, succeeds) =>
      if succeeds && CanCommit(canon, s, id, action, resource, payload) {
        CommitKeeps(canon, s, a);
      }
    case _ =>
  }

  ghost predicate Legal(canon: Canon, s: State, actions: seq<Action>)
    decreases |actions|
  {
    actions == [] || (Enabled(s, actions[0]) && Legal(canon, Step(canon, s, actions[0]), actions[1..]))
  }

  ghost function Exec(canon: Canon, s: State, actions: seq<Action>): State
    requires Legal(canon, s, actions)
    decreases |actions|
  {
    if actions == [] then s else Exec(canon, Step(canon, s, actions[0]), actions[1..])
  }

  lemma {:induction false} RunKeeps(canon: Canon, s: State, actions: seq<Action>)
    requires Inv(canon, s) && Legal(canon, s, actions)
    ensures Inv(canon, Exec(canon, s, actions))
    decreases |actions|
  {
    if actions != [] {
      StepKeeps(canon, s, actions[0]);
      RunKeeps(canon, Step(canon, s, actions[0]), actions[1..]);
    }
  }

  /** Over every run each ask gets at most one result, and so at most one receipt. */
  lemma OneResultPerAsk(canon: Canon, actions: seq<Action>)
    requires Legal(canon, START, actions)
    ensures var s := Exec(canon, START, actions);
            && (forall i, j :: 0 <= i < j < |s.given| ==> s.given[i].ask.id != s.given[j].ask.id)
            && (forall a, b :: a in s.issued && b in s.issued && s.issued[a].askId == s.issued[b].askId ==> a == b)
  {
    RunKeeps(canon, START, actions);
    var s := Exec(canon, START, actions);
    forall a, b | a in s.issued && b in s.issued && s.issued[a].askId == s.issued[b].askId ensures a == b {
      assert Granted(canon, s.given, a, s.issued[a]) && Granted(canon, s.given, b, s.issued[b]);
      var i :| 0 <= i < |s.given| && Grants(canon, s.given[i], a, s.issued[a]);
      var j :| 0 <= j < |s.given| && Grants(canon, s.given[j], b, s.issued[b]);
      assert !(i < j) && !(j < i);
    }
  }

  /** Over every run each receipt backs at most one successful commit, and that comes before expiry. */
  lemma OneCommitPerReceipt(canon: Canon, actions: seq<Action>)
    requires Legal(canon, START, actions)
    ensures var s := Exec(canon, START, actions);
            && (forall i, j :: 0 <= i < j < |s.commits| ==> s.commits[i].receiptId != s.commits[j].receiptId)
            && (forall c :: c in s.commits ==> CommitIsBacked(canon, s.issued, c))
  {
    RunKeeps(canon, START, actions);
  }

  /**
   * Behind every successful commit of every run stands one answer in which the user approved exactly
   * this action on this resource, for a request whose payload has the same canonical form.
   */
  lemma CommitsWereApproved(canon: Canon, actions: seq<Action>, c: Committed) returns (g: Given)
    requires Legal(canon, START, actions) && c in Exec(canon, START, actions).commits
    ensures g in Exec(canon, START, actions).given && g.receiptId == c.receiptId
    ensures g.response == Decision(true, c.action, c.resource)
    ensures g.ask.authorization.Requested? && g.ask.authorization.action == c.action && g.ask.authorization.resource == c.resource
    ensures canon(c.payload).Form? && canon(g.ask.authorization.payload) == canon(c.payload)
  {
    RunKeeps(canon, START, actions);
    var s := Exec(canon, START, actions);
    assert CommitIsBacked(canon, s.issued, c);
    assert Granted(canon, s.given, c.receiptId, s.issued[c.receiptId]);
    var i :| 0 <= i < |s.given| && Grants(canon, s.given[i], c.receiptId, s.issued[c.receiptId]);
    g := s.given[i];
  }

  /** A commit whose callback failed changes nothing, and the same commit can still succeed. */
  lemma FailedCommitLeavesUsable(canon: Canon, s: State, id: string, action: string, resource: string, payload: string)
    requires CanCommit(canon, s, id, action, resource, payload)
    ensures var failed := Step(canon, s, Commit(id, action, resource, payload, false));
            && failed == s
            && Step(canon, failed, Commit(id, action, resource, payload, true)).commits
               == s.commits + [Committed(id, action, resource, payload, s.now)]
  {
  }

  /** A used receipt authorizes nothing more, however much time passes and whatever is asked. */
  lemma UsedStaysUsed(
    canon: Canon, s: State, id: string, action: string, resource: string, payload: string,
    more: seq<Action>, action2: string, resource2: string, payload2: string)
    requires Inv(canon, s) && CanCommit(canon, s, id, action, resource, payload)
    requires Legal(canon, Step(canon, s, Commit(id, action, resource, payload, true)), more)
    ensures var later := Exec(canon, Step(canon, s, Commit(id, action, resource, payload, true)), more);
            !CanCommit(canon, later, id, action2, resource2, payload2)
  {
    var s' := Step(canon, s, Commit(id, action, resource, payload, true));
    StepKeeps(canon, s, Commit(id, action, resource, payload, true));
    assert s'.commits[|s.commits|] in s'.commits;
    CommitsGrow(canon, s', more);
    RunKeeps(canon, s', more);
    var later := Exec(canon, s', more);
    assert s'.commits[|s.commits|] in later.commits;
  }

  lemma {:induction false} CommitsGrow(canon: Canon, s: State, actions: seq<Action>)
    requires Legal(canon, s, actions)
    ensures s.commits <= Exec(canon, s, actions).commits
    decreases |actions|
  {
    if actions != [] {
      CommitsGrow(canon, Step(canon, s, actions[0]), actions[1..]);
    }
  }

  /**
   * Which answers are taken, and which of them approve: one open ask, an authenticated actor, and, if an
   * authorization is asked for, a decision that names it exactly, with a payload that can be read if it approves.
   */
  lemma AnswerExactly(canon: Canon, s: State, response: Response, actor: string, ask: Ask)
    requires s.pending == [ask]
    ensures Answerable(canon, s, response, actor) <==>
              && actor != "" && TrimSpace(actor) == actor && ask.id !in s.answered
              && (ask.authorization.Requested? ==>
                    && response.Decision? && response.action == ask.authorization.action && response.resource == ask.authorization.resource
                    && (response.approve ==> canon(ask.authorization.payload).Form?))
    ensures Answerable(canon, s, response, actor) ==>
              (Approves(s, response) <==> ask.authorization.Requested? && response.approve)
  {
  }

  // ----- an approval can be used -----

  /** The receipt as it was issued stands, unless it was used. */
  predicate Holds(s: State, id: string, r: Receipt) {
    && id in s.issued && s.issued[id] == r
    && (id in s.receipts ==> SameButUse(s.receipts[id], r))
    && (s.now <= r.expires && (forall c :: c in s.commits ==> c.receiptId != id) ==> id in s.receipts && !s.receipts[id].consumed)
  }

  lemma StepHolds(canon: Canon, s: State, a: Action, id: string, r: Receipt)
    requires Enabled(s, a) && Holds(s, id, r)
    ensures Holds(Step(canon, s, a), id, r) && s.now <= Step(canon, s, a).now
  {
    var s' := Step(canon, s, a);
    if s'.commits != s.commits {
      assert s'.commits[|s.commits|] in s'.commits;
      assert forall c :: c in s.commits ==> c in s'.commits;
    }
  }

  lemma {:induction false} RunHolds(canon: Canon, s: State, actions: seq<Action>, id: string, r: Receipt)
    requires Holds(s, id, r) && Legal(canon, s, actions)
    ensures Holds(Exec(canon, s, actions), id, r)
    decreases |actions|
  {
    if actions != [] {
      StepHolds(canon, s, actions[0], id, r);
      RunHolds(canon, Step(canon, s, actions[0]), actions[1..], id, r);
    }
  }

  /**
   * After an approval, whatever else is done, the very action on the very resource with an equivalent
   * payload can be committed under its receipt exactly until the receipt's time is up, as long as it was
   * not committed.
   */
  lemma ApprovalCanBeCommitted(
    canon: Canon, s: State, response: Response, actor: string, newId: string, more: seq<Action>, payload: string)
    requires Inv(canon, s) && Enabled(s, Answer(response, actor, newId))
    requires Answerable(canon, s, response, actor) && Approves(s, response)
    requires Legal(canon, Step(canon, s, Answer(response, actor, newId)), more)
    requires var later := Exec(canon, Step(canon, s, Answer(response, actor, newId)), more);
             forall c :: c in later.commits ==> c.receiptId != newId
    requires var a := s.pending[0].authorization; Exact(a.action) && Exact(a.resource) && canon(payload) == canon(a.payload)
    ensures var later := Exec(canon, Step(canon, s, Answer(response, actor, newId)), more);
            var a := s.pending[0].authorization;
            CanCommit(canon, later, newId, a.action, a.resource, payload) <==> later.now <= s.now + LIFETIME
  {
    var s' := Step(canon, s, Answer(response, actor, newId));
    var r := s'.issued[newId];
    assert Holds(s', newId, r);
    RunHolds(canon, s', more, newId, r);
  }

  // ----- the store object -----

  class ReceiptStore {
    const canon: Canon
    var receipts: map<string, Receipt>
    var answered: set<string>

    constructor (canon: Canon)
      ensures receipts == map[] && answered == {} && this.canon == canon
    {
      this.canon := canon;
      receipts, answered := map[], {};
    }

    method PurgeExpiredReceipts(now: nat)
      modifies `receipts
      ensures receipts == Purged(old(receipts), now)
    {
      var todo := receipts.Keys;
      while todo != {}
        invariant todo <= receipts.Keys <= old(receipts).Keys
        invariant forall id :: id in receipts ==> receipts[id] == old(receipts)[id]
        invariant forall id :: id in old(receipts) && id !in todo ==> (id in receipts <==> !Expired(old(receipts)[id], now))
        decreases |todo|
      {
        var id :| id in todo;
        if now > receipts[id].expires {
          receipts := receipts - {id};
        }
        todo := todo - {id};
      }
      assert receipts.Keys == Purged(old(receipts), now).Keys;
    }

    /** Records the answer to the one pending ask, and issues a receipt if it approves. */
    method ProvideAskUserResult(pending: seq<Ask>, response: Response, actor: string, newId: string, now: nat) returns (ok: bool, outcome: Outcome)
      modifies this
      ensures var s := State(pending, old(answered), old(receipts), now, [], map[], []);
              && (Exact(newId) ==>
                    var s' := Step(canon, s, Answer(response, actor, newId));
                    receipts == s'.receipts && answered == s'.answered)
              && ok == Answerable(canon, s, response, actor)
              && (ok ==> outcome == if Approves(s, response) then Outcome(true, newId) else Outcome(false, ""))
    {
      ok, outcome := false, Outcome(false, "");
      if actor == "" || actor != TrimSpace(actor) {
        return;
      }
      PurgeExpiredReceipts(now);
      if |pending| != 1 {
        return;
      }
      var ask := pending[0];
      if ask.id in answered {
        return;
      }
      var approved := false;
      if ask.authorization.Requested? {
        if !response.Decision? || response.action != ask.authorization.action || response.resource != ask.authorization.resource {
          return;
        }
        approved := response.approve;
      }
      if approved {
        var form := canon(ask.authorization.payload);
        if form.Invalid? {
          return;
        }
        receipts := receipts[newId := Receipt(ask.id, actor, ask.authorization.action, ask.authorization.resource, form.text, now + LIFETIME, false)];
        outcome := Outcome(true, newId);
      }
      answered := answered + {ask.id};
      ok := true;
    }

    /** Whether a receipt authorizes exactly this call; it does not use the receipt up. */
    method VerifyApproval(id: string, action: string, resource: string, payload: string, now: nat) returns (ok: bool)
      modifies `receipts
      ensures ok <==> Exact(id) && Authorizes(canon, old(receipts), now, id, action, resource, payload)
      ensures receipts == if Exact(id) then Dropped(old(receipts), now, id) else old(receipts)
    {
      if id == "" || id != TrimSpace(id) || id !in receipts {
        return false;
      }
      var receipt := receipts[id];
      if receipt.consumed {
        return false;
      }
      if now > receipt.expires {
        receipts := receipts - {id};
        return false;
      }
      if receipt.action != action || receipt.resource != resource {
        return false;
      }
      var form := canon(payload);
      if form.Invalid? {
        return false;
      }
      return receipt.form == form.text;
    }

    /** Validates, runs the caller's commit, and uses the receipt up only if that succeeded. */
    method CommitWithConfirmationReceipt(id: string, action: string, resource: string, payload: string, succeeds: bool, now: nat)
      returns (called: bool, ok: bool)
      modifies `receipts
      ensures var s := State([], {}, old(receipts), now, [], map[], []);
              && called == CanCommit(canon, s, id, action, resource, payload)
              && ok == (called && succeeds)
              && receipts == Step(canon, s, Commit(id, action, resource, payload, succeeds)).receipts
    {
      if id == "" || id != TrimSpace(id) || action == "" || action != TrimSpace(action) || resource == "" || resource != TrimSpace(resource) {
        return false, false;
      }
      if id !in receipts || receipts[id].consumed {
        return false, false;
      }
      var receipt := receipts[id];
      if now > receipt.expires {
        receipts := receipts - {id};
        return false, false;
      }
      if receipt.action != action || receipt.resource != resource {
        return false, false;
      }
      var form := canon(payload);
      if form.Invalid? || receipt.form != form.text {
        return false, false;
      }
      if !succeeds {
        return true, false;
      }
      receipts := receipts[id := receipt.(consumed := true)];
      return true, true;
    }
  }
}
