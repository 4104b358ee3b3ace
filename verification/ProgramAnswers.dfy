/** What the instructions of the settlement program answer and whom they move money to, read off the accounts before and after. */
module ProgramAnswers {
  import opened Wrappers
  import opened Sums
  import opened SettlementProgram
  import opened Chain

  // ----- settle_payout

  /** settle_payout goes through exactly when all of its checks hold. */
  lemma SettlesExactlyWhen(a: Accounts, c: SettleCall, now: int)
    ensures Execute(a, SettlePayout(c), now).Ok? <==>
      && c.venue in a.venues && Vault(c.venue) in a.tokens && c.payment !in a.records
      && c.authority == a.venues[c.venue].authority && c.mint == a.usdcMint && !a.paused && a.venues[c.venue].active
      && c.allocationHash != ZERO_HASH && 0 < c.amount <= a.tokens[Vault(c.venue)]
      && (if c.wallet == Vault(c.venue) then a.tokens[c.wallet] else Balance(a.tokens, c.wallet) + c.amount) < U64_LIMIT
  {
  }

  /** The recipient is up by exactly the amount, the vault down by it, every other balance as it was. */
  ghost predicate MovesMoney(tokens: map<Owner, nat>, tokens': map<Owner, nat>, c: SettleCall) {
    forall owner :: Balance(tokens', owner) ==
      Balance(tokens, owner) + (if owner == c.wallet then c.amount else 0) - (if owner == Vault(c.venue) then c.amount else 0)
  }

  lemma AnAcceptedSettlementPays(a: Accounts, c: SettleCall, now: int)
    requires Execute(a, SettlePayout(c), now).Ok?
    ensures
      var a' := After(a, SettlePayout(c), now);
      && MovesMoney(a.tokens, a'.tokens, c)
      && c.payment !in a.records && a'.records.Keys == a.records.Keys + {c.payment}
      && a'.records[c.payment] == Record(c.allocationHash, c.venue, c.wallet, c.amount, Settled, now, ZERO_HASH)
      && (forall p :: p in a.records ==> a'.records[p] == a.records[p])
      && a' == a.(tokens := a'.tokens, records := a'.records)
  {
  }

  /** A refused call, of whatever instruction, changes nothing. */
  lemma ARefusalChangesNothing(a: Accounts, i: Instruction, now: int)
    requires Execute(a, i, now).Err?
    ensures After(a, i, now) == a
  {
  }

  /** The error is that of the first check that fails: accounts first, then their constraints, then the body's. */
  lemma SettleChecksInOrder(a: Accounts, c: SettleCall)
    ensures c.venue !in a.venues || Vault(c.venue) !in a.tokens ==> SettleError(a, c) == Some(AccountMissing)
    ensures c.venue in a.venues && Vault(c.venue) in a.tokens ==> SettleError(a, c) == FirstFailing([
      (c.payment in a.records, AlreadyInUse),
      (a.venues[c.venue].authority != c.authority, Unauthorized),
      (a.usdcMint != c.mint, InvalidMint),
      (a.paused, ProtocolPaused),
      (!a.venues[c.venue].active, VenueInactive),
      (Balance(a.tokens, Vault(c.venue)) < c.amount, InsufficientVaultBalance),
      (c.allocationHash == ZERO_HASH, ZeroAllocationHash),
      (c.amount < 1, ZeroAmount),
      (Overflows(a, c), TokenOverflow)])
  {
    if c.venue in a.venues && Vault(c.venue) in a.tokens { SettleErrorIsFirst(a, c); }
  }

  lemma SettleErrorIsFirst(a: Accounts, c: SettleCall)
    requires c.venue in a.venues && Vault(c.venue) in a.tokens
    ensures SettleError(a, c) == FirstFailing([
      (c.payment in a.records, AlreadyInUse),
      (a.venues[c.venue].authority != c.authority, Unauthorized),
      (a.usdcMint != c.mint, InvalidMint),
      (a.paused, ProtocolPaused),
      (!a.venues[c.venue].active, VenueInactive),
      (Balance(a.tokens, Vault(c.venue)) < c.amount, InsufficientVaultBalance),
      (c.allocationHash == ZERO_HASH, ZeroAllocationHash),
      (c.amount < 1, ZeroAmount),
      (Overflows(a, c), TokenOverflow)])
  {
    FirstOfNine(
      c.payment in a.records, a.venues[c.venue].authority != c.authority, a.usdcMint != c.mint, a.paused, !a.venues[c.venue].active,
      Balance(a.tokens, Vault(c.venue)) < c.amount, c.allocationHash == ZERO_HASH, c.amount < 1, Overflows(a, c),
      AlreadyInUse, Unauthorized, InvalidMint, ProtocolPaused, VenueInactive,
      InsufficientVaultBalance, ZeroAllocationHash, ZeroAmount, TokenOverflow);
  }

  /** The recipient's balance after the transfer is past 64 bits; a vault paying itself gets no more than it has. */
  predicate Overflows(a: Accounts, c: SettleCall) {
    U64_LIMIT <= Balance(a.tokens, c.wallet) + if c.wallet == Vault(c.venue) then 0 else c.amount
  }

  lemma FirstOfNine<E>(
    b1: bool, b2: bool, b3: bool, b4: bool, b5: bool, b6: bool, b7: bool, b8: bool, b9: bool,
    e1: E, e2: E, e3: E, e4: E, e5: E, e6: E, e7: E, e8: E, e9: E)
    ensures FirstFailing([(b1, e1), (b2, e2), (b3, e3), (b4, e4), (b5, e5), (b6, e6), (b7, e7), (b8, e8), (b9, e9)]) ==
      if b1 then Some(e1) else if b2 then Some(e2) else if b3 then Some(e3) else if b4 then Some(e4) else if b5 then Some(e5)
      else if b6 then Some(e6) else if b7 then Some(e7) else if b8 then Some(e8) else if b9 then Some(e9) else None
  {
    var checks := [(b1, e1), (b2, e2), (b3, e3), (b4, e4), (b5, e5), (b6, e6), (b7, e7), (b8, e8), (b9, e9)];
    assert forall i :: 0 <= i < 9 ==> checks[i..][1..] == checks[i + 1..];
    FirstThenRest(checks);
    FirstThenRest(checks[1..]);
    FirstThenRest(checks[2..]);
    FirstThenRest(checks[3..]);
    FirstThenRest(checks[4..]);
    FirstThenRest(checks[5..]);
    FirstThenRest(checks[6..]);
    FirstThenRest(checks[7..]);
    FirstThenRest(checks[8..]);
    assert checks[9..] == [];
  }

  // ----- who holds what was settled

  ghost function PaidTo(records: map<Id, Record>, owner: Owner): map<Id, int> {
    map p | p in records && records[p].wallet == owner :: records[p].amount as int
  }

  lemma NewRecordTo(records: map<Id, Record>, p: Id, r: Record, owner: Owner)
    requires p !in records
    ensures SumMap(PaidTo(records[p := r], owner)) == SumMap(PaidTo(records, owner)) + (if r.wallet == owner then r.amount else 0)
  {
    SumUpdate(PaidTo(records, owner), p, r.amount);
    assert PaidTo(records[p := r], owner) == if r.wallet == owner then PaidTo(records, owner)[p := r.amount] else PaidTo(records, owner);
  }

  /** What an ordinary wallet holds beyond what was settled to it. */
  ghost function HeldBesides(a: Accounts, wallet: Pubkey): int {
    Balance(a.tokens, Wallet(wallet)) - SumMap(PaidTo(a.records, Wallet(wallet)))
  }

  lemma SettlingKeepsHeld(a: Accounts, c: SettleCall, now: int, wallet: Pubkey)
    requires Execute(a, SettlePayout(c), now).Ok?
    ensures HeldBesides(After(a, SettlePayout(c), now), wallet) == HeldBesides(a, wallet)
  {
    AnAcceptedSettlementPays(a, c, now);
    var a' := After(a, SettlePayout(c), now);
    NewRecordTo(a.records, c.payment, a'.records[c.payment], Wallet(wallet));
    assert a'.records == a.records[c.payment := a'.records[c.payment]];
  }

  lemma CallKeepsHeld(a: Accounts, i: Instruction, now: int, wallet: Pubkey)
    ensures HeldBesides(After(a, i, now), wallet) == HeldBesides(a, wallet)
  {
    if i.SettlePayout? && Execute(a, i, now).Ok? {
      SettlingKeepsHeld(a, i.call, now, wallet);
    } else {
      assert PaidTo(After(a, i, now).records, Wallet(wallet)) == PaidTo(a.records, Wallet(wallet));
    }
  }

  lemma {:induction false} RunKeepsHeld(a: Accounts, calls: seq<Call>, wallet: Pubkey)
    ensures HeldBesides(RunCalls(a, calls), wallet) == HeldBesides(a, wallet)
    decreases |calls|
  {
    if calls != [] {
      CallKeepsHeld(a, calls[0].instruction, calls[0].now, wallet);
      RunKeepsHeld(After(a, calls[0].instruction, calls[0].now), calls[1..], wallet);
    }
  }

  /** Over any run of calls from deployment, an ordinary wallet holds exactly the sum of what was settled to it. */
  lemma WalletsHoldTheirSettlements(admin: Pubkey, mint: Pubkey, calls: seq<Call>, wallet: Pubkey)
    ensures
      var a := RunCalls(Genesis(admin, mint), calls);
      Balance(a.tokens, Wallet(wallet)) == SumMap(PaidTo(a.records, Wallet(wallet)))
  {
    RunKeepsHeld(Genesis(admin, mint), calls, wallet);
    assert PaidTo(Genesis(admin, mint).records, Wallet(wallet)) == map[];
  }

  lemma {:induction false} ForkKeepsHeld(a: Accounts, landed: seq<Landed>, wallet: Pubkey)
    ensures HeldBesides(Replay(a, landed), wallet) == HeldBesides(a, wallet)
    decreases |landed|
  {
    if landed != [] {
      var n := |landed| - 1;
      ForkKeepsHeld(a, landed[..n], wallet);
      CallKeepsHeld(Replay(a, landed[..n]), InstructionOf(landed[n].what), landed[n].now, wallet);
    }
  }

  /** And on any fork of the cluster, at every length: what it held at the start and what the fork settled to it. */
  lemma ForksPayTheWallets(c: ChainState, n: nat, wallet: Pubkey)
    requires WellFormed(c) && n <= |c.landed|
    ensures Balance(Replay(c.genesis, c.landed[..n]).tokens, Wallet(wallet))
         == Balance(c.genesis.tokens, Wallet(wallet)) + SumMap(PaidTo(RecordsAt(c, n), Wallet(wallet)))
  {
    ForkKeepsHeld(c.genesis, c.landed[..n], wallet);
    assert PaidTo(c.genesis.records, Wallet(wallet)) == map[];
  }

  // ----- who may do what

  /** Only the admin pauses and unpauses, and always can. */
  lemma OnlyTheAdminPauses(a: Accounts, i: Instruction, now: int)
    ensures After(a, i, now).paused != a.paused ==> i.SetPaused? && i.signer == a.admin && i.paused != a.paused
    ensures i.SetPaused? ==> (Execute(a, i, now).Ok? <==> i.signer == a.admin)
    ensures i.SetPaused? && i.signer == a.admin ==> After(a, i, now) == a.(paused := i.paused)
  {
  }

  /** Only the admin registers a venue, once, with the authority given and active; a registered one never changes. */
  lemma OnlyTheAdminRegisters(a: Accounts, i: Instruction, now: int, v: Id)
    ensures v in a.venues ==> v in After(a, i, now).venues && After(a, i, now).venues[v] == a.venues[v]
    ensures v !in a.venues && v in After(a, i, now).venues ==>
      i.RegisterVenue? && i.venue == v && i.signer == a.admin && After(a, i, now).venues[v] == Venue(i.authority, true)
    ensures i.RegisterVenue? ==> (Execute(a, i, now).Ok? <==> i.venue !in a.venues && i.signer == a.admin)
    ensures i.RegisterVenue? && Execute(a, i, now).Ok? ==> i.venue in After(a, i, now).venues
  {
  }

  /** Admin and mint are what they were at deployment. */
  lemma ConfigIsFixed(a: Accounts, i: Instruction, now: int)
    ensures After(a, i, now).admin == a.admin && After(a, i, now).usdcMint == a.usdcMint
  {
  }

  /** A vault is opened once, empty, for a registered venue. */
  lemma VaultsOpenEmpty(a: Accounts, venue: Id, now: int)
    ensures
      var i := InitializeVenueVault(venue);
      && (Execute(a, i, now).Ok? <==> venue in a.venues && Vault(venue) !in a.tokens)
      && (Execute(a, i, now).Ok? ==>
            After(a, i, now).tokens.Keys == a.tokens.Keys + {Vault(venue)}
            && forall owner :: Balance(After(a, i, now).tokens, owner) == Balance(a.tokens, owner))
  {
  }

  /** Tokens put into a vault are in the vault, and nowhere else. */
  lemma DepositsArrive(a: Accounts, venue: Id, amount: nat, now: int)
    ensures
      var i := Deposit(venue, amount);
      && (Execute(a, i, now).Ok? <==> Vault(venue) in a.tokens && a.tokens[Vault(venue)] + amount < U64_LIMIT)
      && (Execute(a, i, now).Ok? ==>
            && DepositsOf(After(a, i, now), venue) == DepositsOf(a, venue) + amount
            && forall owner :: Balance(After(a, i, now).tokens, owner) == Balance(a.tokens, owner) + if owner == Vault(venue) then amount else 0)
  {
  }

  lemma MarkRefusals(a: Accounts, payment: Id, venue: Id, signer: Pubkey)
    ensures CorrectionError(a, payment, venue, signer) == Some(AccountMissing) <==> venue !in a.venues || payment !in a.records
    ensures CorrectionError(a, payment, venue, signer) == Some(VenueMismatch) <==>
      venue in a.venues && payment in a.records && a.records[payment].venue != venue
    ensures CorrectionError(a, payment, venue, signer) == Some(Unauthorized) <==>
      venue in a.venues && payment in a.records && a.records[payment].venue == venue
      && signer != a.venues[venue].authority && signer != a.admin
  {
  }

  /** The venue's authority and the admin may flag a record of the venue, and nobody else. */
  lemma MarksExactlyWhen(a: Accounts, payment: Id, venue: Id, correction: Hash, disputed: bool, signer: Pubkey, now: int)
    ensures
      var i := Instruction.MarkCorrected(payment, venue, correction, disputed, signer);
      && (Execute(a, i, now).Ok? <==>
            && venue in a.venues && payment in a.records && a.records[payment].venue == venue
            && (signer == a.venues[venue].authority || signer == a.admin))
      && (Execute(a, i, now).Ok? ==>
            && After(a, i, now).records[payment].status == (if disputed then MarkedDisputed else MarkedCorrected)
            && After(a, i, now).records[payment].correction == correction
            && SameTerms(a.records[payment], After(a, i, now).records[payment])
            && After(a, i, now).records.Keys == a.records.Keys
            && (forall p :: p in a.records && p != payment ==> After(a, i, now).records[p] == a.records[p])
            && After(a, i, now).tokens == a.tokens)
  {
  }
}
