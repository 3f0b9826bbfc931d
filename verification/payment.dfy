/** Two-party payment: a client that signs cheques, an agent that accepts them, and a network between them. */
module Payment {
  import opened Machine
  import opened ClientBilling

  /** Ideal signatures: nobody but the client makes a SignedFor; anything else is noise. */
  datatype Signature = SignedFor(amount: nat) | Noise(tag: nat)

  datatype Cheque = Cheque(balance: nat, sig: Signature)

  predicate Verifies(q: Cheque) {
    q.sig == SignedFor(q.balance)
  }

  /** The agent's row of the channel. */
  datatype AgentRow = AgentRow(receipt: nat, signature: Option<Signature>, deposit: nat,
                               active: bool, terminated: bool)

  datatype Reply = Accepted | ServiceTerminated | ChannelClosed | BadSignature | EqualBalance | InvalidBalance

  /** The checks before the update, in the order of the handler, on the row it read. */
  function Checks(a: AgentRow, q: Cheque): Option<Reply> {
    if a.terminated then Some(ServiceTerminated)
    else if !a.active then Some(ChannelClosed)
    else if !Verifies(q) then Some(BadSignature)
    else if a.receipt == q.balance then Some(EqualBalance)
    else None
  }

  /** The conditional UPDATE, on the row as it is then. */
  function Updated(a: AgentRow, q: Cheque): AgentRow {
    if a.receipt < q.balance <= a.deposit then a.(receipt := q.balance, signature := Some(q.sig)) else a
  }

  /** Cooperative close needs the signature of a non-zero receipt. */
  datatype CloseResult = NothingToClose | NoReceiptSignature | Closed(q: Cheque)

  function Close(a: AgentRow): CloseResult {
    if a.receipt == 0 then NothingToClose
    else if a.signature.None? then NoReceiptSignature
    else Closed(Cheque(a.receipt, a.signature.value))
  }

  /** The agent's record of the channel; reading, checking and updating are separate accesses to it. */
  class AgentChannel {
    var row: AgentRow

    constructor (deposit: nat)
      ensures row == AgentRow(0, None, deposit, true, false)
    {
      row := AgentRow(0, None, deposit, true, false);
    }

    /** The update step of a request whose checks passed on an earlier state of the row. */
    method UpdateWithPayment(q: Cheque) returns (reply: Reply)
      modifies this
      ensures row == Updated(old(row), q)
      ensures reply == if old(row).receipt < q.balance <= old(row).deposit then Accepted else InvalidBalance
    {
      if row.receipt < q.balance && row.deposit >= q.balance {
        row := row.(receipt := q.balance, signature := Some(q.sig));
        return Accepted;
      }
      return InvalidBalance;
    }

    /** A request served without interruption: the first reason to refuse it, in the order of the checks, or none. */
    method HandlePay(q: Cheque) returns (reply: Reply)
      modifies this
      ensures var r := old(row);
              && (reply == ServiceTerminated <==> r.terminated)
              && (reply == ChannelClosed <==> !r.terminated && !r.active)
              && (reply == BadSignature <==> !r.terminated && r.active && q.sig != SignedFor(q.balance))
              && (reply == EqualBalance <==>
                    !r.terminated && r.active && q.sig == SignedFor(q.balance) && q.balance == r.receipt)
              && (reply == InvalidBalance <==>
                    !r.terminated && r.active && q.sig == SignedFor(q.balance)
                    && (q.balance < r.receipt || (q.balance > r.deposit && q.balance != r.receipt)))
              && (reply == Accepted <==>
                    !r.terminated && r.active && q.sig == SignedFor(q.balance) && r.receipt < q.balance <= r.deposit)
      ensures row == if reply == Accepted then old(row).(receipt := q.balance, signature := Some(q.sig)) else old(row)
    {
      if row.terminated {
        return ServiceTerminated;
      }
      if !row.active {
        return ChannelClosed;
      }
      if !Verifies(q) {
        return BadSignature;
      }
      if row.receipt == q.balance {
        return EqualBalance;
      }
      reply := UpdateWithPayment(q);
    }

    /** The agent's after-top-up handler: its update is its last step. */
    method AfterChannelTopUp(added: nat) returns (ok: bool)
      modifies this
      ensures ok <==> Storable(old(row).deposit, added)
      ensures row == if ok then old(row).(deposit := Wrap64(old(row).deposit + added)) else old(row)
    {
      var total := Wrap64(row.deposit + added);
      if !FitsI64(total) {
        return false;
      }
      row := row.(deposit := total);
      return true;
    }
  }

  // ---- the protocol ----

  /** Both records, the goroutines and requests in flight, and the chain both sides learn top-ups from. */
  datatype State = State(
    client: ClientRow,
    agent: AgentRow,
    chain: nat,              // the channel's deposit on the blockchain
    clientLogs: seq<nat>,    // top-ups whose after-top-up job the client has not finished
    agentLogs: seq<nat>,     // top-ups whose after-top-up job the agent has not finished
    balanceJob: bool,        // a balance update of the client's account is active
    clientAgain: nat,        // history: what the client's retried handlers added to its record
    agentAgain: nat,         // history: the same for the agent
    clientMissed: nat,       // history: top-ups whose log or job the client lost
    agentMissed: nat,        // history: the same for the agent
    outbox: set<nat>,        // amounts the client decided to pay, not signed yet
    signed: set<nat>,        // amounts the client signed
    net: set<Cheque>,        // everything ever on the wire; delivered any number of times or never
    checked: set<Cheque>,    // requests that passed the agent's checks and have not updated yet
    acks: set<nat>,          // positive replies on the wire
    closes: seq<CloseResult> // attempts at a cooperative close
  )

  datatype Action =
    | Bills(o: Offer, consumed: nat, inactive: bool)  // a client billing round
    | Signs(amount: nat)                              // a posting goroutine signs and sends
    | Injects(q: Cheque)                              // someone else sends a request
    | Receives(q: Cheque)                             // the agent reads its row and checks a request
    | Updates(q: Cheque)                              // ... and runs the conditional update
    | Acks(amount: nat)                               // a positive reply reaches the client
    | TopsUp(amount: nat, clientFinds: bool, agentFinds: bool)  // a top-up is mined; a monitor that does not
                                                      // find the channel of its log makes no job
    | ClientLog(i: nat, last: bool, dies: bool)       // the client's after-top-up handler; is this its last try,
                                                      // and does the controller die before the job is saved?
    | AgentLog(i: nat, dies: bool)                    // the agent's after-top-up handler
    | ClientGivesUp(i: nat)                           // the client's after-top-up job fails for good before its update
    | AgentGivesUp(i: nat)                            // the agent's
    | BalanceJob(active: bool)                        // a balance update is added or ends
    | AgentStatus(active: bool, terminated: bool)     // the agent's channel or service status changes
    | Closes                                          // the agent's terminate job closes the channel

  function Without(xs: seq<nat>, i: nat): seq<nat>
    requires i < |xs|
  {
    xs[..i] + xs[i + 1..]
  }

  predicate Enabled(s: State, a: Action) {
    match a
    case Bills(o, consumed, inactive) => StoredOffer(o)
    case Signs(amount) => amount in s.outbox
    case Injects(q) => q.sig.SignedFor? ==> q.sig.amount in s.signed
    case Receives(q) => q in s.net && Checks(s.agent, q).None?
    case Updates(q) => q in s.checked
    case Acks(amount) => amount in s.acks
    case TopsUp(amount, _, _) => FitsI64(s.chain + amount)
    case ClientLog(i, _, _) => i < |s.clientLogs| && Storable(s.client.deposit, s.clientLogs[i])
    case AgentLog(i, _) => i < |s.agentLogs| && Storable(s.agent.deposit, s.agentLogs[i])
    case ClientGivesUp(i) => i < |s.clientLogs|
    case AgentGivesUp(i) => i < |s.agentLogs|
    case BalanceJob(_) => true
    case AgentStatus(_, _) => true
    case Closes => true
  }

  /** The client's handler adds a balance update after it saved the deposit, and is retried if one is active. */
  predicate ClientKeeps(s: State, last: bool, dies: bool) {
    dies || (s.balanceJob && !last)
  }

  function Rest(logs: seq<nat>, i: nat, keeps: bool): seq<nat>
    requires i < |logs|
  {
    if keeps then logs else Without(logs, i)
  }

  /** The effect of an action; a disabled action changes nothing. */
  function Next(s: State, a: Action): State {
    if !Enabled(s, a) then s else
      match a
      case Bills(o, consumed, inactive) =>
        var post := Bill(o, s.client, consumed, inactive, None).post;
        if post.Some? then s.(outbox := s.outbox + {post.value}) else s
      case Signs(amount) =>
        s.(signed := s.signed + {amount}, net := s.net + {Cheque(amount, SignedFor(amount))})
      case Injects(q) => s.(net := s.net + {q})
      case Receives(q) => s.(checked := s.checked + {q})
      case Updates(q) =>
        if Updated(s.agent, q) == s.agent then s
        else s.(agent := Updated(s.agent, q), acks := s.acks + {q.balance})
      case Acks(amount) => s.(client := Acked(s.client, amount))
      case TopsUp(amount, clientFinds, agentFinds) =>
        s.(chain := s.chain + amount,
           clientLogs := if clientFinds then s.clientLogs + [amount] else s.clientLogs,
           clientMissed := s.clientMissed + if clientFinds then 0 else amount,
           agentLogs := if agentFinds then s.agentLogs + [amount] else s.agentLogs,
           agentMissed := s.agentMissed + if agentFinds then 0 else amount)
      case ClientLog(i, last, dies) =>
        var keeps := ClientKeeps(s, last, dies);
        s.(client := s.client.(deposit := Wrap64(s.client.deposit + s.clientLogs[i])),
           clientLogs := Rest(s.clientLogs, i, keeps),
           clientAgain := s.clientAgain + if keeps then s.clientLogs[i] else 0,
           balanceJob := s.balanceJob || !dies)
      case AgentLog(i, dies) =>
        s.(agent := s.agent.(deposit := Wrap64(s.agent.deposit + s.agentLogs[i])),
           agentLogs := Rest(s.agentLogs, i, dies),
           agentAgain := s.agentAgain + if dies then s.agentLogs[i] else 0)
      case ClientGivesUp(i) =>
        s.(clientLogs := Without(s.clientLogs, i), clientMissed := s.clientMissed + s.clientLogs[i])
      case AgentGivesUp(i) =>
        s.(agentLogs := Without(s.agentLogs, i), agentMissed := s.agentMissed + s.agentLogs[i])
      case BalanceJob(active) => s.(balanceJob := active)
      case AgentStatus(active, terminated) => s.(agent := s.agent.(active := active, terminated := terminated))
      case Closes => s.(closes := s.closes + [Close(s.agent)])
  }

  function Init(deposit: nat): State {
    State(ClientRow(0, deposit), AgentRow(0, None, deposit, true, false), deposit,
          [], [], false, 0, 0, 0, 0, {}, {}, {}, {}, {}, [])
  }

  function Run(s: State, actions: seq<Action>): State
    decreases |actions|
  {
    if actions == [] then s else Run(Next(s, actions[0]), actions[1..])
  }

  // ---- what every step keeps ----

  ghost function SumOf(xs: seq<nat>): nat {
    if xs == [] then 0 else SumOf(xs[..|xs| - 1]) + xs[|xs| - 1]
  }

  lemma {:induction false} SumWithout(xs: seq<nat>, i: nat)
    requires i < |xs|
    ensures SumOf(xs) == SumOf(Without(xs, i)) + xs[i]
  {
    var n := |xs| - 1;
    if i == n {
      assert Without(xs, i) == xs[..n];
    } else {
      SumWithout(xs[..n], i);
      assert Without(xs, i)[..n - 1] == Without(xs[..n], i);
      assert Without(xs, i)[n - 1] == xs[n];
    }
  }

  /** A side's record, the top-ups it has not finished, those it missed, and what it added more than once. */
  ghost predicate Balanced(deposit: nat, logs: seq<nat>, chain: nat, missed: nat, again: nat) {
    && FitsI64(deposit)
    && (forall x :: x in logs ==> FitsI64(x))
    && deposit + SumOf(logs) + missed == chain + again
  }

  /** Each side's record, unfinished and missed top-ups are the chain's deposit plus what its retried
      handlers added. */
  ghost predicate DepositsInv(s: State) {
    && Balanced(s.client.deposit, s.clientLogs, s.chain, s.clientMissed, s.clientAgain)
    && Balanced(s.agent.deposit, s.agentLogs, s.chain, s.agentMissed, s.agentAgain)
  }

  /** Amounts the client signed or is about to sign are covered by its deposit. */
  ghost predicate ClientInv(s: State) {
    && (forall v :: v in s.signed || v in s.outbox ==> v <= s.client.deposit)
    && (s.client.receipt != 0 ==> s.client.receipt <= s.agent.receipt)
    && forall v :: v in s.acks ==> v <= s.agent.receipt
  }

  /** Signatures on the wire are the client's; the agent's row holds one of its cheques. */
  ghost predicate AgentInv(s: State) {
    && (forall q :: q in s.net && q.sig.SignedFor? ==> q.sig.amount in s.signed)
    && (forall q :: q in s.checked ==> Verifies(q) && q.balance in s.signed)
    && s.agent.receipt <= s.agent.deposit
    && (s.agent.receipt == 0 ==> s.agent.signature == None)
    && (s.agent.receipt != 0 ==>
          s.agent.receipt in s.signed && s.agent.signature == Some(SignedFor(s.agent.receipt)))
    && forall i :: 0 <= i < |s.closes| ==> ValidClose(s, s.closes[i])
  }

  ghost predicate ValidClose(s: State, c: CloseResult) {
    c.NothingToClose? || (c.Closed? && Verifies(c.q) && c.q.balance in s.signed)
  }

  ghost predicate Inv(s: State) {
    DepositsInv(s) && ClientInv(s) && AgentInv(s)
  }

  /** A handler's update, and what becomes of its job. */
  lemma LogProcessed(deposit: nat, logs: seq<nat>, i: nat, keeps: bool, chain: nat, missed: nat, again: nat)
    requires i < |logs| && Balanced(deposit, logs, chain, missed, again) && Storable(deposit, logs[i])
    ensures Wrap64(deposit + logs[i]) == deposit + logs[i]
    ensures Balanced(deposit + logs[i], Rest(logs, i, keeps), chain, missed, again + if keeps then logs[i] else 0)
  {
    SumWithout(logs, i);
    assert FitsI64(logs[i]);
  }

  lemma LogAdded(deposit: nat, logs: seq<nat>, amount: nat, chain: nat, missed: nat, again: nat)
    requires Balanced(deposit, logs, chain, missed, again) && FitsI64(amount)
    ensures Balanced(deposit, logs + [amount], chain + amount, missed, again)
    ensures Balanced(deposit, logs, chain + amount, missed + amount, again)
  {
    assert (logs + [amount])[..|logs|] == logs;
  }

  lemma LogGivenUp(deposit: nat, logs: seq<nat>, i: nat, chain: nat, missed: nat, again: nat)
    requires i < |logs| && Balanced(deposit, logs, chain, missed, again)
    ensures Balanced(deposit, Without(logs, i), chain, missed + logs[i], again)
  {
    SumWithout(logs, i);
  }

  lemma ClientDepositStep(s: State, a: Action)
    requires Balanced(s.client.deposit, s.clientLogs, s.chain, s.clientMissed, s.clientAgain)
    ensures var s' := Next(s, a);
            Balanced(s'.client.deposit, s'.clientLogs, s'.chain, s'.clientMissed, s'.clientAgain)
            && s'.client.deposit >= s.client.deposit
  {
    if Enabled(s, a) {
      match a
      case TopsUp(amount, _, _) =>
        LogAdded(s.client.deposit, s.clientLogs, amount, s.chain, s.clientMissed, s.clientAgain);
      case ClientLog(i, last, dies) =>
        LogProcessed(s.client.deposit, s.clientLogs, i, ClientKeeps(s, last, dies), s.chain, s.clientMissed,
                     s.clientAgain);
      case ClientGivesUp(i) =>
        LogGivenUp(s.client.deposit, s.clientLogs, i, s.chain, s.clientMissed, s.clientAgain);
      case _ =>
    }
  }

  lemma AgentDepositStep(s: State, a: Action)
    requires Balanced(s.agent.deposit, s.agentLogs, s.chain, s.agentMissed, s.agentAgain)
    ensures var s' := Next(s, a);
            Balanced(s'.agent.deposit, s'.agentLogs, s'.chain, s'.agentMissed, s'.agentAgain)
            && s'.agent.deposit >= s.agent.deposit
  {
    if Enabled(s, a) {
      match a
      case TopsUp(amount, _, _) =>
        LogAdded(s.agent.deposit, s.agentLogs, amount, s.chain, s.agentMissed, s.agentAgain);
      case AgentLog(i, dies) =>
        LogProcessed(s.agent.deposit, s.agentLogs, i, dies, s.chain, s.agentMissed, s.agentAgain);
      case AgentGivesUp(i) =>
        LogGivenUp(s.agent.deposit, s.agentLogs, i, s.chain, s.agentMissed, s.agentAgain);
      case _ =>
    }
  }

  lemma DepositsStep(s: State, a: Action)
    requires DepositsInv(s)
    ensures DepositsInv(Next(s, a))
    ensures Next(s, a).client.deposit >= s.client.deposit && Next(s, a).agent.deposit >= s.agent.deposit
  {
    ClientDepositStep(s, a);
    AgentDepositStep(s, a);
  }

  lemma ClientStep(s: State, a: Action)
    requires Inv(s) && Next(s, a).client.deposit >= s.client.deposit
    ensures ClientInv(Next(s, a))
    ensures Next(s, a).client.receipt >= s.client.receipt && Next(s, a).agent.receipt >= s.agent.receipt
  {
  }

  lemma AgentStep(s: State, a: Action)
    requires Inv(s) && Next(s, a).agent.deposit >= s.agent.deposit
    ensures AgentInv(Next(s, a)) && s.signed <= Next(s, a).signed
  {
  }

  lemma Step(s: State, a: Action)
    requires Inv(s)
    ensures Inv(Next(s, a))
    ensures Next(s, a).client.receipt >= s.client.receipt && Next(s, a).agent.receipt >= s.agent.receipt
    ensures s.signed <= Next(s, a).signed
  {
    DepositsStep(s, a);
    ClientStep(s, a);
    AgentStep(s, a);
  }

  /** Payment safety, and monotone receipts, over every run and every state along it. */
  lemma {:induction false} PaymentSafety(s: State, actions: seq<Action>)
    requires Inv(s)
    ensures Inv(Run(s, actions))
    ensures Run(s, actions).client.receipt >= s.client.receipt
    ensures Run(s, actions).agent.receipt >= s.agent.receipt
    decreases |actions|
  {
    if actions != [] {
      Step(s, actions[0]);
      PaymentSafety(Next(s, actions[0]), actions[1..]);
    }
  }

  /** In every reachable state: client receipt <= agent receipt <= some amount the client signed, and
      every amount it signed <= client deposit; agent receipt <= agent deposit. This holds whatever a handler
      adds twice: the records then exceed the chain's deposit by exactly that. */
  lemma ReceiptChain(deposit: nat, actions: seq<Action>)
    requires FitsI64(deposit)
    ensures var s := Run(Init(deposit), actions);
            && s.client.receipt <= s.agent.receipt <= s.agent.deposit <= s.chain + s.agentAgain
            && (s.agent.receipt == 0 || s.agent.receipt in s.signed)
            && (forall v :: v in s.signed ==> v <= s.client.deposit <= s.chain + s.clientAgain)
  {
    PaymentSafety(Init(deposit), actions);
  }

  /** In every reachable state a close finds the signature of a non-zero receipt and submits the client's cheque. */
  lemma CloseHasSignature(deposit: nat, actions: seq<Action>)
    requires FitsI64(deposit)
    ensures var s := Run(Init(deposit), actions);
            && Close(s.agent) == (if s.agent.receipt == 0 then NothingToClose
                                  else Closed(Cheque(s.agent.receipt, SignedFor(s.agent.receipt))))
            && (forall c :: c in s.closes ==> c != NoReceiptSignature)
            && forall c :: c in s.closes && c.Closed? ==> Verifies(c.q) && c.q.balance in s.signed
  {
    PaymentSafety(Init(deposit), actions);
  }

  // ---- when the records match the chain ----

  /** The record and the unfinished top-ups of a side are what the channel holds on the blockchain. */
  ghost predicate ClientMatches(s: State) {
    s.client.deposit + SumOf(s.clientLogs) == s.chain
  }

  ghost predicate AgentMatches(s: State) {
    s.agent.deposit + SumOf(s.agentLogs) == s.chain
  }

  /** A handler saves the deposit and its job is run again: at that moment a balance update of the account is
      active and the job has tries left, or the controller dies. */
  predicate ClientRepeats(s: State, a: Action) {
    a.ClientLog? && Enabled(s, a) && ClientKeeps(s, a.last, a.dies) && s.clientLogs[a.i] > 0
  }

  predicate AgentRepeats(s: State, a: Action) {
    a.AgentLog? && Enabled(s, a) && a.dies && s.agentLogs[a.i] > 0
  }

  /** A side loses a top-up: its monitor does not find the channel, or its job fails for good before the update. */
  predicate ClientMisses(s: State, a: Action) {
    Enabled(s, a) && ((a.TopsUp? && !a.clientFinds && a.amount > 0) || (a.ClientGivesUp? && s.clientLogs[a.i] > 0))
  }

  predicate AgentMisses(s: State, a: Action) {
    Enabled(s, a) && ((a.TopsUp? && !a.agentFinds && a.amount > 0) || (a.AgentGivesUp? && s.agentLogs[a.i] > 0))
  }

  /** Some step of a run is of a kind. */
  predicate Ever(kind: (State, Action) -> bool, s: State, actions: seq<Action>)
    decreases |actions|
  {
    actions != [] && (kind(s, actions[0]) || Ever(kind, Next(s, actions[0]), actions[1..]))
  }

  lemma HistoryStep(s: State, a: Action)
    ensures var s' := Next(s, a);
            && s'.clientAgain >= s.clientAgain && (s'.clientAgain > s.clientAgain <==> ClientRepeats(s, a))
            && s'.agentAgain >= s.agentAgain && (s'.agentAgain > s.agentAgain <==> AgentRepeats(s, a))
            && s'.clientMissed >= s.clientMissed && (s'.clientMissed > s.clientMissed <==> ClientMisses(s, a))
            && s'.agentMissed >= s.agentMissed && (s'.agentMissed > s.agentMissed <==> AgentMisses(s, a))
  {
  }

  lemma {:induction false} ClientHistory(s: State, actions: seq<Action>)
    ensures var s' := Run(s, actions);
            && s'.clientAgain >= s.clientAgain && s'.clientMissed >= s.clientMissed
            && (s'.clientAgain > s.clientAgain <==> Ever(ClientRepeats, s, actions))
            && (s'.clientMissed > s.clientMissed <==> Ever(ClientMisses, s, actions))
    decreases |actions|
  {
    if actions != [] {
      HistoryStep(s, actions[0]);
      ClientHistory(Next(s, actions[0]), actions[1..]);
    }
  }

  lemma {:induction false} AgentHistory(s: State, actions: seq<Action>)
    ensures var s' := Run(s, actions);
            && s'.agentAgain >= s.agentAgain && s'.agentMissed >= s.agentMissed
            && (s'.agentAgain > s.agentAgain <==> Ever(AgentRepeats, s, actions))
            && (s'.agentMissed > s.agentMissed <==> Ever(AgentMisses, s, actions))
    decreases |actions|
  {
    if actions != [] {
      HistoryStep(s, actions[0]);
      AgentHistory(Next(s, actions[0]), actions[1..]);
    }
  }

  /** A side's record matches the chain after a run exactly if what its handlers added again is what it missed:
      in particular if none was run again after its update and no top-up was missed. Repeating alone leaves
      it too high, missing alone too low. */
  lemma RecordsMatchChainIff(deposit: nat, actions: seq<Action>)
    requires FitsI64(deposit)
    ensures var init, s := Init(deposit), Run(Init(deposit), actions);
            && (ClientMatches(s) <==> s.clientAgain == s.clientMissed)
            && (AgentMatches(s) <==> s.agentAgain == s.agentMissed)
            && (!Ever(ClientMisses, init, actions) ==>
                  s.chain <= s.client.deposit + SumOf(s.clientLogs)
                  && (ClientMatches(s) <==> !Ever(ClientRepeats, init, actions)))
            && (!Ever(AgentMisses, init, actions) ==>
                  s.chain <= s.agent.deposit + SumOf(s.agentLogs)
                  && (AgentMatches(s) <==> !Ever(AgentRepeats, init, actions)))
            && (!Ever(ClientRepeats, init, actions) ==>
                  s.client.deposit + SumOf(s.clientLogs) <= s.chain
                  && (ClientMatches(s) <==> !Ever(ClientMisses, init, actions)))
            && (!Ever(AgentRepeats, init, actions) ==>
                  s.agent.deposit + SumOf(s.agentLogs) <= s.chain
                  && (AgentMatches(s) <==> !Ever(AgentMisses, init, actions)))
  {
    PaymentSafety(Init(deposit), actions);
    ClientHistory(Init(deposit), actions);
    AgentHistory(Init(deposit), actions);
  }

  /** So without such a retry no signed amount and no receipt exceeds the channel's deposit on the blockchain. */
  lemma CoveredByChain(deposit: nat, actions: seq<Action>)
    requires FitsI64(deposit) && !Ever(ClientRepeats, Init(deposit), actions)
    ensures var s := Run(Init(deposit), actions);
            s.client.receipt <= s.agent.receipt <= s.chain && forall v :: v in s.signed ==> v <= s.chain
  {
    ReceiptChain(deposit, actions);
    RecordsMatchChainIff(deposit, actions);
  }

  // ---- who is paid ----

  /** A request passes the agent's checks only while the service is not terminated and the channel is active. */
  lemma ReceivedWhileLive(s: State, a: Action, q: Cheque)
    requires q in Next(s, a).checked && q !in s.checked
    ensures !s.agent.terminated && s.agent.active && q.sig == SignedFor(q.balance) && q.balance != s.agent.receipt
  {
  }

  /** The agent's service is terminated or its channel closed. */
  predicate Dead(s: State) {
    s.agent.terminated || !s.agent.active
  }

  /** No step of a run makes the service and the channel live again. */
  predicate StaysDead(actions: seq<Action>) {
    forall i :: 0 <= i < |actions| && actions[i].AgentStatus? ==> actions[i].terminated || !actions[i].active
  }

  lemma DeadStep(s: State, a: Action)
    requires Dead(s) && (a.AgentStatus? ==> a.terminated || !a.active)
    ensures Dead(Next(s, a)) && Next(s, a).checked == s.checked
    ensures s.checked == {} ==> Next(s, a).agent.receipt == s.agent.receipt
                                && Next(s, a).agent.signature == s.agent.signature
  {
  }

  /** While the agent's service is terminated or its channel closed, no request passes the checks, and once the
      requests that had passed are through, nothing is paid. */
  lemma {:induction false} DeadTakesNoPayment(s: State, actions: seq<Action>)
    requires Dead(s) && StaysDead(actions)
    ensures var s' := Run(s, actions);
            Dead(s') && s'.checked == s.checked
            && (s.checked == {} ==> s'.agent.receipt == s.agent.receipt && s'.agent.signature == s.agent.signature)
    decreases |actions|
  {
    if actions != [] {
      DeadStep(s, actions[0]);
      assert StaysDead(actions[1..]) by {
        forall i | 0 <= i < |actions| - 1 && actions[1..][i].AgentStatus?
          ensures actions[1..][i].terminated || !actions[1..][i].active
        {
          assert actions[1..][i] == actions[i + 1];
        }
      }
      DeadTakesNoPayment(Next(s, actions[0]), actions[1..]);
    }
  }

  /** An undisturbed payment reaches both records: billed, signed, checked, accepted and acknowledged. */
  lemma PaymentGoesThrough(s: State, o: Offer, consumed: nat)
    requires StoredOffer(o) && Bill(o, s.client, consumed, false, None).post.Some?
    requires var v := Bill(o, s.client, consumed, false, None).post.value;
             !Dead(s) && s.agent.receipt < v <= s.agent.deposit && s.client.receipt < v
    ensures var v := Bill(o, s.client, consumed, false, None).post.value;
            var q := Cheque(v, SignedFor(v));
            var s' := Run(s, [Bills(o, consumed, false), Signs(v), Receives(q), Updates(q), Acks(v)]);
            s'.client.receipt == s'.agent.receipt == v && s'.agent.signature == Some(SignedFor(v))
  {
    var v := Bill(o, s.client, consumed, false, None).post.value;
    var q := Cheque(v, SignedFor(v));
    var bills, signs, receives, updates, acks := Bills(o, consumed, false), Signs(v), Receives(q), Updates(q), Acks(v);
    var s1 := Next(s, bills);
    var s2 := Next(s1, signs);
    RunCons(s, bills, [signs] + [receives, updates, acks]);
    RunCons(s1, signs, [receives, updates, acks]);
    assert [bills, signs, receives, updates, acks] == [bills] + ([signs] + [receives, updates, acks]);
    ServedWhileLive(s2, q);
  }

  lemma ServedWhileLive(s: State, q: Cheque)
    requires !Dead(s) && q in s.net && q.sig == SignedFor(q.balance) && s.client.receipt < q.balance
    requires s.agent.receipt < q.balance <= s.agent.deposit
    ensures var s' := Run(s, [Receives(q), Updates(q), Acks(q.balance)]);
            s'.client.receipt == s'.agent.receipt == q.balance && s'.agent.signature == Some(q.sig)
  {
    var receives, updates, acks := Receives(q), Updates(q), Acks(q.balance);
    var s1 := Next(s, receives);
    var s2 := Next(s1, updates);
    RunCons(s, receives, [updates, acks]);
    RunCons(s1, updates, [acks]);
    RunCons(s2, acks, []);
    assert [receives, updates, acks] == [receives] + [updates, acks];
    assert [updates, acks] == [updates] + [acks] && [acks] == [acks] + [];
  }

  lemma RunCons(s: State, a: Action, actions: seq<Action>)
    ensures Run(s, [a] + actions) == Run(Next(s, a), actions)
  {
    assert ([a] + actions)[1..] == actions;
  }

  /** Far more was consumed than the client's record covers: it signs all of it. */
  lemma SignsItsDeposit(s: State) returns (actions: seq<Action>)
    requires s.client.receipt == 0 && FitsI64(s.client.deposit)
    ensures var s' := Run(s, actions); s.client.deposit in s'.signed && s'.chain == s.chain
  {
    var d := s.client.deposit;
    var round := Bills(Offer(0, 1, 1), d + 1, false);
    var s1 := Next(s, round);
    actions := [Signs(d)] + [];
    RunCons(s1, Signs(d), []);
    RunCons(s, round, actions);
    actions := [round] + actions;
  }

  lemma RetriedHandler(s: State, a: nat) returns (actions: seq<Action>)
    requires s.clientLogs == [a] && s.client.receipt == 0 && s.client.deposit + 2 * a < I64
    ensures var s' := Run(s, actions); s.client.deposit + 2 * a in s'.signed && s'.chain == s.chain
  {
    var handler := ClientLog(0, false, false);
    var s1 := Next(s, BalanceJob(true));
    var s2 := Next(s1, handler);
    var s3 := Next(s2, handler);
    assert s3.client == ClientRow(0, s.client.deposit + 2 * a);
    actions := SignsItsDeposit(s3);
    RunCons(s2, handler, actions);
    actions := [handler] + actions;
    RunCons(s1, handler, actions);
    actions := [handler] + actions;
    RunCons(s, BalanceJob(true), actions);
    actions := [BalanceJob(true)] + actions;
  }

  /** A top-up, a balance update active when its handler runs, one retry: the client signs an amount above
      the channel's deposit on the blockchain. */
  lemma SignsAboveChainExample(d: nat, a: nat) returns (actions: seq<Action>)
    requires a > 0 && d + 2 * a < I64
    ensures var s := Run(Init(d), actions); d + 2 * a in s.signed && s.chain == d + a
  {
    var mined := TopsUp(a, true, true);
    var s1 := Next(Init(d), mined);
    assert s1.clientLogs == [a];
    actions := RetriedHandler(s1, a);
    RunCons(Init(d), mined, actions);
    actions := [mined] + actions;
  }

  /** A top-up the agent's monitor met before the channel's row was there: the client records it and pays out of
      it, and the agent, whose record stays below the chain, refuses. */
  lemma MissedTopUpExample(d: nat, a: nat)
    requires a > 0 && d + a < I64
    ensures var s := Run(Init(d), [TopsUp(a, true, false), ClientLog(0, false, false)]);
            && ClientMatches(s) && s.client.deposit == s.chain == d + a
            && s.agent.deposit + SumOf(s.agentLogs) == d < s.chain
            && Updated(s.agent, Cheque(d + a, SignedFor(d + a))) == s.agent
  {
    var mined, handler := TopsUp(a, true, false), ClientLog(0, false, false);
    var s1 := Next(Init(d), mined);
    assert s1.clientLogs == [a];
    RunCons(Init(d), mined, [handler]);
    RunCons(s1, handler, []);
    assert [mined, handler] == [mined] + [handler] && [handler] == [handler] + [];
  }
}
