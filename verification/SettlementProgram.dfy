/**
 * The on-chain settlement program: pausing, venues, vaults, settle_payout and
 * mark_corrected. Addresses derived from a payment id, a venue or a vault
 * authority are modelled by the id itself, so that equal ids mean equal accounts
 * and different ids different ones.
 */
module SettlementProgram {
  import opened Wrappers
  import opened Sums

  type Pubkey = nat
  type Hash = nat

  const ZERO_HASH: Hash := 0
  const U64_LIMIT: nat := 0x1_0000_0000_0000_0000

  /** Who owns a token account: an ordinary wallet or the vault authority of a venue. */
  datatype Owner = Wallet(key: Pubkey) | Vault(venue: Id)

  datatype RecordStatus = Settled | MarkedCorrected | MarkedDisputed

  datatype Record = Record(
    allocationHash: Hash, venue: Id, wallet: Owner, amount: nat,
    status: RecordStatus, settledAt: int, correction: Hash)

  datatype Venue = Venue(authority: Pubkey, active: bool)

  datatype SettleCall = SettleCall(
    payment: Id, allocationHash: Hash, amount: nat, venue: Id, authority: Pubkey, wallet: Owner, mint: Pubkey)

  datatype Instruction =
    | RegisterVenue(venue: Id, authority: Pubkey, signer: Pubkey)
    | InitializeVenueVault(venue: Id)
    | SettlePayout(call: SettleCall)
    | MarkCorrected(payment: Id, venue: Id, correction: Hash, disputed: bool, signer: Pubkey)
    | SetPaused(paused: bool, signer: Pubkey)
    // A token transfer or mint into a venue's vault by anybody: not an instruction of the program.
    | Deposit(venue: Id, amount: nat)

  datatype SpError =
    | AccountMissing | AlreadyInUse | Unauthorized | InvalidMint | ProtocolPaused | VenueInactive
    | InsufficientVaultBalance | ZeroAllocationHash | ZeroAmount | VenueMismatch | TokenOverflow

  /** `deposited` is bookkeeping: all tokens ever put into a vault from outside the program. */
  datatype Accounts = Accounts(
    admin: Pubkey, usdcMint: Pubkey, paused: bool,
    venues: map<Id, Venue>, tokens: map<Owner, nat>, records: map<Id, Record>, deposited: map<Id, nat>)

  function Balance(tokens: map<Owner, nat>, owner: Owner): nat {
    if owner in tokens then tokens[owner] else 0
  }

  function DepositsOf(a: Accounts, venue: Id): nat {
    if venue in a.deposited then a.deposited[venue] else 0
  }

  /** Moves tokens between two accounts, creating the destination if needed. A transfer to oneself changes nothing. */
  function Transfer(tokens: map<Owner, nat>, from: Owner, to: Owner, amount: nat): map<Owner, nat>
    requires from in tokens && amount <= tokens[from]
  {
    var debited := tokens[from := tokens[from] - amount];
    debited[to := Balance(debited, to) + amount]
  }

  /** Why settle_payout refuses a call, or None when it goes through. */
  function SettleError(a: Accounts, c: SettleCall): Option<SpError> {
    if c.venue !in a.venues || Vault(c.venue) !in a.tokens then Some(AccountMissing)
    else if c.payment in a.records then Some(AlreadyInUse)
    else if c.authority != a.venues[c.venue].authority then Some(Unauthorized)
    else if c.mint != a.usdcMint then Some(InvalidMint)
    else if a.paused then Some(ProtocolPaused)
    else if !a.venues[c.venue].active then Some(VenueInactive)
    else if a.tokens[Vault(c.venue)] < c.amount then Some(InsufficientVaultBalance)
    else if c.allocationHash == ZERO_HASH then Some(ZeroAllocationHash)
    else if c.amount == 0 then Some(ZeroAmount)
    else if Balance(Transfer(a.tokens, Vault(c.venue), c.wallet, c.amount), c.wallet) >= U64_LIMIT then Some(TokenOverflow)
    else None
  }

  function Settle(a: Accounts, c: SettleCall, now: int): Accounts
    requires SettleError(a, c).None?
  {
    a.(tokens := Transfer(a.tokens, Vault(c.venue), c.wallet, c.amount),
       records := a.records[c.payment := Record(c.allocationHash, c.venue, c.wallet, c.amount, Settled, now, ZERO_HASH)])
  }

  function CorrectionError(a: Accounts, payment: Id, venue: Id, signer: Pubkey): Option<SpError> {
    if venue !in a.venues || payment !in a.records then Some(AccountMissing)
    else if a.records[payment].venue != venue then Some(VenueMismatch)
    else if signer != a.venues[venue].authority && signer != a.admin then Some(Unauthorized)
    else None
  }

  function Execute(a: Accounts, i: Instruction, now: int): Result<Accounts, SpError> {
    match i
    case RegisterVenue(venue, authority, signer) =>
      if venue in a.venues then Err(AlreadyInUse)
      else if signer != a.admin then Err(Unauthorized)
      else Ok(a.(venues := a.venues[venue := Venue(authority, true)]))
    case InitializeVenueVault(venue) =>
      if venue !in a.venues then Err(AccountMissing)
      else if Vault(venue) in a.tokens then Err(AlreadyInUse)
      else Ok(a.(tokens := a.tokens[Vault(venue) := 0]))
    case SettlePayout(call) =>
      var refusal := SettleError(a, call);
      if refusal.Some? then Err(refusal.value) else Ok(Settle(a, call, now))
    case MarkCorrected(payment, venue, correction, disputed, signer) =>
      var refusal := CorrectionError(a, payment, venue, signer);
      if refusal.Some? then Err(refusal.value)
      else Ok(a.(records := a.records[payment := a.records[payment].(
                               status := if disputed then MarkedDisputed else MarkedCorrected, correction := correction)]))
    case SetPaused(paused, signer) =>
      if signer != a.admin then Err(Unauthorized) else Ok(a.(paused := paused))
    case Deposit(venue, amount) =>
      if Vault(venue) !in a.tokens then Err(AccountMissing)
      else if a.tokens[Vault(venue)] + amount >= U64_LIMIT then Err(TokenOverflow)
      else Ok(a.(tokens := a.tokens[Vault(venue) := a.tokens[Vault(venue)] + amount],
                 deposited := a.deposited[venue := DepositsOf(a, venue) + amount]))
  }

  /** The accounts after a call: a refused call leaves them as they were. */
  function After(a: Accounts, i: Instruction, now: int): Accounts {
    var r := Execute(a, i, now);
    if r.Ok? then r.value else a
  }

  /** What a settlement fixes for ever. */
  predicate SameTerms(r: Record, r': Record) {
    r.amount == r'.amount && r.venue == r'.venue && r.wallet == r'.wallet
    && r.allocationHash == r'.allocationHash && r.settledAt == r'.settledAt
  }

  ghost predicate RecordsKept(a: Accounts, a': Accounts) {
    forall p :: p in a.records ==> p in a'.records && SameTerms(a.records[p], a'.records[p])
  }

  lemma ExecuteKeepsRecords(a: Accounts, i: Instruction, now: int)
    ensures RecordsKept(a, After(a, i, now))
  {
  }

  lemma RecordsKeptTwice(a: Accounts, b: Accounts, c: Accounts)
    requires RecordsKept(a, b) && RecordsKept(b, c)
    ensures RecordsKept(a, c)
  {
  }

  /** A call is an instruction with the time at which it runs. */
  datatype Call = Call(instruction: Instruction, now: int)

  function RunCalls(a: Accounts, calls: seq<Call>): Accounts
    decreases |calls|
  {
    if calls == [] then a else RunCalls(After(a, calls[0].instruction, calls[0].now), calls[1..])
  }

  predicate Settles(a: Accounts, c: Call, p: Id) {
    c.instruction.SettlePayout? && c.instruction.call.payment == p && Execute(a, c.instruction, c.now).Ok?
  }

  /** How many calls of a run moved money for payment p. */
  function SettlementsOf(a: Accounts, calls: seq<Call>, p: Id): nat
    decreases |calls|
  {
    if calls == [] then 0
    else (if Settles(a, calls[0], p) then 1 else 0)
         + SettlementsOf(After(a, calls[0].instruction, calls[0].now), calls[1..], p)
  }

  /**
   * Whatever is resubmitted, in whatever order: over any run a payment is settled at most
   * once, exactly when its record appears in that run; and no record ever loses its terms.
   */
  lemma {:induction false} AtMostOneSettlement(a: Accounts, calls: seq<Call>, p: Id)
    ensures RecordsKept(a, RunCalls(a, calls))
    ensures SettlementsOf(a, calls, p) == (if p !in a.records && p in RunCalls(a, calls).records then 1 else 0)
    decreases |calls|
  {
    if calls != [] {
      var next := After(a, calls[0].instruction, calls[0].now);
      AtMostOneSettlement(next, calls[1..], p);
      ExecuteKeepsRecords(a, calls[0].instruction, calls[0].now);
      RecordsKeptTwice(a, next, RunCalls(a, calls));
    }
  }

  /** While the protocol is paused and nobody unpauses it, no call moves money. */
  lemma {:induction false} NothingSettlesWhilePaused(a: Accounts, calls: seq<Call>, p: Id)
    requires a.paused
    requires forall i :: 0 <= i < |calls| ==> !(calls[i].instruction.SetPaused? && !calls[i].instruction.paused)
    ensures SettlementsOf(a, calls, p) == 0 && RunCalls(a, calls).records.Keys == a.records.Keys
    decreases |calls|
  {
    if calls != [] {
      NothingSettlesWhilePaused(After(a, calls[0].instruction, calls[0].now), calls[1..], p);
    }
  }

  /** A record, once there, is changed by its venue's authority or the admin only, and only in its flags. */
  lemma OnlyAuthorityFlags(a: Accounts, i: Instruction, now: int, p: Id)
    requires p in a.records && After(a, i, now).records[p] != a.records[p]
    ensures i.MarkCorrected? && i.payment == p && i.venue == a.records[p].venue
    ensures i.signer == a.admin || (i.venue in a.venues && i.signer == a.venues[i.venue].authority)
    ensures After(a, i, now).records[p] ==
            a.records[p].(status := if i.disputed then MarkedDisputed else MarkedCorrected, correction := i.correction)
  {
    ExecuteKeepsRecords(a, i, now);
  }

  // ----- conservation of vault money

  ghost function PaidFrom(records: map<Id, Record>, venue: Id): map<nat, int> {
    map p | p in records && records[p].venue == venue :: records[p].amount as int
  }

  ghost function PaidInto(records: map<Id, Record>, venue: Id): map<nat, int> {
    map p | p in records && records[p].wallet == Vault(venue) :: records[p].amount as int
  }

  /** Every token of the venue's vault is accounted for. */
  ghost predicate VaultBalanced(a: Accounts, venue: Id) {
    DepositsOf(a, venue) + SumMap(PaidInto(a.records, venue))
    == Balance(a.tokens, Vault(venue)) + SumMap(PaidFrom(a.records, venue))
  }

  ghost predicate Sound(a: Accounts) {
    && (forall v :: VaultBalanced(a, v))
    && (forall p :: p in a.records ==> 0 < a.records[p].amount)
  }

  lemma NewRecordInto(records: map<Id, Record>, p: Id, r: Record, v: Id)
    requires p !in records
    ensures SumMap(PaidInto(records[p := r], v)) == SumMap(PaidInto(records, v)) + (if r.wallet == Vault(v) then r.amount else 0)
  {
    SumUpdate(PaidInto(records, v), p, r.amount);
    assert PaidInto(records[p := r], v) == if r.wallet == Vault(v) then PaidInto(records, v)[p := r.amount] else PaidInto(records, v);
  }

  lemma NewRecordFrom(records: map<Id, Record>, p: Id, r: Record, v: Id)
    requires p !in records
    ensures SumMap(PaidFrom(records[p := r], v)) == SumMap(PaidFrom(records, v)) + (if r.venue == v then r.amount else 0)
  {
    SumUpdate(PaidFrom(records, v), p, r.amount);
    assert PaidFrom(records[p := r], v) == if r.venue == v then PaidFrom(records, v)[p := r.amount] else PaidFrom(records, v);
  }

  lemma SameMoneySameSums(records: map<Id, Record>, records': map<Id, Record>, v: Id)
    requires records.Keys == records'.Keys
    requires forall p :: p in records ==> SameTerms(records[p], records'[p])
    ensures PaidFrom(records, v) == PaidFrom(records', v) && PaidInto(records, v) == PaidInto(records', v)
  {
  }

  lemma ExecuteKeepsBalance(a: Accounts, i: Instruction, now: int, v: Id)
    requires VaultBalanced(a, v)
    ensures VaultBalanced(After(a, i, now), v)
  {
    var a' := After(a, i, now);
    match i
    case SettlePayout(c) =>
      if SettleError(a, c).None? {
        NewRecordFrom(a.records, c.payment, a'.records[c.payment], v);
        NewRecordInto(a.records, c.payment, a'.records[c.payment], v);
      }
    case MarkCorrected(_, _, _, _, _) =>
      SameMoneySameSums(a.records, a'.records, v);
    case _ =>
      assert a'.records == a.records;
  }

  lemma {:induction false} RunKeepsSound(a: Accounts, calls: seq<Call>)
    requires Sound(a)
    ensures Sound(RunCalls(a, calls))
    decreases |calls|
  {
    if calls != [] {
      var next := After(a, calls[0].instruction, calls[0].now);
      forall v ensures VaultBalanced(next, v) {
        ExecuteKeepsBalance(a, calls[0].instruction, calls[0].now, v);
      }
      RunKeepsSound(next, calls[1..]);
    }
  }

  /** The program right after initialize_config, before any venue exists. */
  function Genesis(admin: Pubkey, usdcMint: Pubkey): Accounts {
    Accounts(admin, usdcMint, false, map[], map[], map[], map[])
  }

  /**
   * From deployment on, a venue's deposits less its vault balance are the sum of its
   * settlements if and only if no settlement of any venue was paid into this vault.
   */
  lemma DepositsAreSpentOnSettlements(admin: Pubkey, mint: Pubkey, calls: seq<Call>, venue: Id)
    ensures
      var a := RunCalls(Genesis(admin, mint), calls);
      DepositsOf(a, venue) - Balance(a.tokens, Vault(venue)) == SumMap(PaidFrom(a.records, venue))
      <==> forall p :: p in a.records ==> a.records[p].wallet != Vault(venue)
  {
    var g := Genesis(admin, mint);
    forall v ensures VaultBalanced(g, v) {
      assert PaidFrom(g.records, v) == map[] && PaidInto(g.records, v) == map[];
    }
    RunKeepsSound(g, calls);
    var a := RunCalls(g, calls);
    assert VaultBalanced(a, venue);
    var into := PaidInto(a.records, venue);
    SumPositive(into);
    if forall p :: p in a.records ==> a.records[p].wallet != Vault(venue) {
      assert into == map[];
    } else {
      var p :| p in a.records && a.records[p].wallet == Vault(venue);
      assert p in into;
    }
  }

  const PAID_TO_A_VAULT := [
    Call(RegisterVenue(1, 5, 0), 0), Call(InitializeVenueVault(1), 0), Call(Deposit(1, 2), 0),
    Call(SettlePayout(SettleCall(7, 8, 1, 1, 5, Vault(1), 9)), 0)]

  /** A venue can pay its own vault; then its books no longer add up. */
  lemma AVaultCanBePaid()
    ensures
      var a := RunCalls(Genesis(0, 9), PAID_TO_A_VAULT);
      && 7 in a.records && a.records[7].wallet == Vault(1)
      && DepositsOf(a, 1) - Balance(a.tokens, Vault(1)) != SumMap(PaidFrom(a.records, 1))
  {
    var calls, a0 := PAID_TO_A_VAULT, Genesis(0, 9);
    var a1 := After(a0, calls[0].instruction, 0);
    var a2 := After(a1, calls[1].instruction, 0);
    var a3 := After(a2, calls[2].instruction, 0);
    RunUnfolds(a0, calls);
    RunUnfolds(a1, calls[1..]);
    RunUnfolds(a2, calls[2..]);
    RunUnfolds(a3, calls[3..]);
    assert calls[1..][1..] == calls[2..] && calls[2..][1..] == calls[3..] && calls[3..][1..] == [];
    DepositsAreSpentOnSettlements(0, 9, calls, 1);
  }

  lemma RunUnfolds(a: Accounts, calls: seq<Call>)
    requires calls != []
    ensures RunCalls(a, calls) == RunCalls(After(a, calls[0].instruction, calls[0].now), calls[1..])
  {
  }

  // ----- the program as the chain runs it: accounts written field by field

  class ProgramAccounts {
    var admin: Pubkey
    var usdcMint: Pubkey
    var paused: bool
    var venues: map<Id, Venue>
    var tokens: map<Owner, nat>
    var records: map<Id, Record>
    var deposited: map<Id, nat>

    ghost function View(): Accounts
      reads this
    {
      Accounts(admin, usdcMint, paused, venues, tokens, records, deposited)
    }

    /** initialize_config */
    constructor (admin: Pubkey, usdcMint: Pubkey)
      ensures View() == Genesis(admin, usdcMint)
    {
      this.admin := admin;
      this.usdcMint := usdcMint;
      paused := false;
      venues, tokens, records, deposited := map[], map[], map[], map[];
    }

    method TransferChecked(from: Owner, to: Owner, amount: nat) returns (error: Option<SpError>)
      requires from in tokens && amount <= tokens[from]
      modifies this`tokens
      ensures
        var moved := Transfer(old(tokens), from, to, amount);
        if Balance(moved, to) < U64_LIMIT then error.None? && tokens == moved
        else error == Some(TokenOverflow) && tokens == old(tokens)
    {
      var before := tokens;
      tokens := tokens[from := tokens[from] - amount];
      var credit := Balance(tokens, to) + amount;
      if credit >= U64_LIMIT {
        tokens := before;
        return Some(TokenOverflow);
      }
      tokens := tokens[to := credit];
      return None;
    }

    /** A refused call leaves every account as it was; an accepted one is exactly `Execute`. */
    method SettlePayout(call: SettleCall, now: int) returns (error: Option<SpError>)
      modifies this
      ensures error == SettleError(old(View()), call)
      ensures View() == After(old(View()), Instruction.SettlePayout(call), now)
      ensures error.Some? ==> tokens == old(tokens) && records == old(records)
      ensures error.None? ==>
        && (forall owner :: Balance(tokens, owner) == Balance(old(tokens), owner)
              + (if owner == call.wallet then call.amount else 0) - (if owner == Vault(call.venue) then call.amount else 0))
        && records == old(records)[call.payment :=
             Record(call.allocationHash, call.venue, call.wallet, call.amount, Settled, now, ZERO_HASH)]
    {
      // account constraints
      if call.venue !in venues || Vault(call.venue) !in tokens { return Some(AccountMissing); }
      if call.payment in records { return Some(AlreadyInUse); }
      if call.authority != venues[call.venue].authority { return Some(Unauthorized); }
      if call.mint != usdcMint { return Some(InvalidMint); }
      // body
      if paused { return Some(ProtocolPaused); }
      if !venues[call.venue].active { return Some(VenueInactive); }
      if tokens[Vault(call.venue)] < call.amount { return Some(InsufficientVaultBalance); }
      if call.allocationHash == ZERO_HASH { return Some(ZeroAllocationHash); }
      if call.amount == 0 { return Some(ZeroAmount); }
      error := TransferChecked(Vault(call.venue), call.wallet, call.amount);
      if error.Some? { return; }
      records := records[call.payment :=
        Record(call.allocationHash, call.venue, call.wallet, call.amount, Settled, now, ZERO_HASH)];
    }

    method MarkCorrected(payment: Id, venue: Id, correction: Hash, disputed: bool, signer: Pubkey)
      returns (error: Option<SpError>)
      modifies this`records
      ensures error == CorrectionError(old(View()), payment, venue, signer)
      ensures forall now :: View() == After(old(View()), Instruction.MarkCorrected(payment, venue, correction, disputed, signer), now)
    {
      if venue !in venues || payment !in records { return Some(AccountMissing); }
      if records[payment].venue != venue { return Some(VenueMismatch); }
      if signer != venues[venue].authority && signer != admin { return Some(Unauthorized); }
      var record := records[payment];
      record := record.(status := if disputed then MarkedDisputed else MarkedCorrected);
      record := record.(correction := correction);
      records := records[payment := record];
      return None;
    }

    /** pause and unpause */
    method SetPaused(value: bool, signer: Pubkey) returns (error: Option<SpError>)
      modifies this`paused
      ensures error == (if signer != admin then Some(Unauthorized) else None)
      ensures forall now :: View() == After(old(View()), Instruction.SetPaused(value, signer), now)
    {
      if signer != admin { return Some(Unauthorized); }
      paused := value;
      return None;
    }
  }
}
