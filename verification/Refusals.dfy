/** Which refusals of settle_payout are for good, and which other calls can lift the rest. */
module Refusals {
  import opened Wrappers
  import opened SettlementProgram
  import opened Chain

  /** The payment fits into the recipient's token account. */
  predicate HasRoom(a: Accounts, c: SettleCall) {
    Balance(a.tokens, c.wallet) + c.amount < U64_LIMIT
  }

  /**
   * Nothing that can still happen makes the program accept the settlement: its terms are bad,
   * the venue is another authority's or not active, or an ordinary wallet is too full for it.
   */
  predicate Barred(a: Accounts, c: SettleCall) {
    || c.mint != a.usdcMint || c.allocationHash == ZERO_HASH || c.amount == 0
    || (c.venue in a.venues && (c.authority != a.venues[c.venue].authority || !a.venues[c.venue].active))
    || (c.wallet.Wallet? && !HasRoom(a, c))
  }

  lemma BarredIsRefused(a: Accounts, c: SettleCall)
    requires Barred(a, c)
    ensures SettleError(a, c).Some?
  {
  }

  lemma BarredStays(a: Accounts, i: Instruction, now: int, c: SettleCall)
    requires Barred(a, c)
    ensures Barred(After(a, i, now), c)
  {
  }

  lemma {:induction false} BarredOverCalls(a: Accounts, calls: seq<Call>, c: SettleCall)
    requires Barred(a, c)
    ensures Barred(RunCalls(a, calls), c)
    decreases |calls|
  {
    if calls != [] {
      BarredStays(a, calls[0].instruction, calls[0].now, c);
      BarredOverCalls(After(a, calls[0].instruction, calls[0].now), calls[1..], c);
    }
  }

  lemma {:induction false} BarredOnTheFork(a: Accounts, landed: seq<Landed>, n: nat, c: SettleCall)
    requires n <= |landed| && Barred(Replay(a, landed[..n]), c)
    ensures Barred(Replay(a, landed), c)
    decreases |landed|
  {
    if n == |landed| {
      assert landed[..n] == landed;
    } else {
      var m := |landed| - 1;
      assert landed[..m][..n] == landed[..n];
      BarredOnTheFork(a, landed[..m], n, c);
      BarredStays(Replay(a, landed[..m]), InstructionOf(landed[m].what), landed[m].now, c);
    }
  }

  // ----- lifting the other refusals

  function Missing(a: Accounts, c: SettleCall): nat {
    if Balance(a.tokens, Vault(c.venue)) < c.amount then c.amount - Balance(a.tokens, Vault(c.venue)) else 0
  }

  /** Register the venue, open its vault, unpause, deposit what is missing; what was there already is refused and stays. */
  function Cures(a: Accounts, c: SettleCall): seq<Call> {
    [Call(RegisterVenue(c.venue, c.authority, a.admin), 0), Call(InitializeVenueVault(c.venue), 0),
     Call(SetPaused(false, a.admin), 0), Call(Deposit(c.venue, Missing(a, c)), 0)]
  }

  lemma RunOfFour(a: Accounts, c1: Call, c2: Call, c3: Call, c4: Call)
    ensures RunCalls(a, [c1, c2, c3, c4]) ==
            After(After(After(After(a, c1.instruction, c1.now), c2.instruction, c2.now), c3.instruction, c3.now), c4.instruction, c4.now)
  {
    assert [c1, c2, c3, c4][1..] == [c2, c3, c4] && [c2, c3, c4][1..] == [c3, c4] && [c3, c4][1..] == [c4];
    RunUnfolds(a, [c1, c2, c3, c4]);
    var a1 := After(a, c1.instruction, c1.now);
    RunUnfolds(a1, [c2, c3, c4]);
    var a2 := After(a1, c2.instruction, c2.now);
    RunUnfolds(a2, [c3, c4]);
  }

  lemma OpensTheVenue(a: Accounts, c: SettleCall)
    requires !Barred(a, c) && HasRoom(a, c)
    ensures
      var a2 := After(After(a, RegisterVenue(c.venue, c.authority, a.admin), 0), InitializeVenueVault(c.venue), 0);
      && !Barred(a2, c) && HasRoom(a2, c) && c.venue in a2.venues && Vault(c.venue) in a2.tokens
      && a2.records == a.records && a2.admin == a.admin && Missing(a2, c) == Missing(a, c)
  {
  }

  lemma FundsTheVault(a: Accounts, c: SettleCall)
    requires !Barred(a, c) && HasRoom(a, c) && c.venue in a.venues && Vault(c.venue) in a.tokens && c.payment !in a.records
    ensures SettleError(After(After(a, SetPaused(false, a.admin), 0), Deposit(c.venue, Missing(a, c)), 0), c).None?
  {
  }

  lemma CuresWork(a: Accounts, c: SettleCall)
    requires !Barred(a, c) && HasRoom(a, c) && c.payment !in a.records
    ensures SettleError(RunCalls(a, Cures(a, c)), c).None?
  {
    var calls := Cures(a, c);
    RunOfFour(a, calls[0], calls[1], calls[2], calls[3]);
    OpensTheVenue(a, c);
    FundsTheVault(After(After(a, calls[0].instruction, 0), calls[1].instruction, 0), c);
  }

  /** Some calls, none of them a settlement, after which the program accepts this one. */
  ghost predicate CanBeLifted(a: Accounts, c: SettleCall) {
    exists calls :: NoSettlement(calls) && SettleError(RunCalls(a, calls), c).None?
  }

  predicate NoSettlement(calls: seq<Call>) {
    forall i :: 0 <= i < |calls| ==> !calls[i].instruction.SettlePayout?
  }

  /** A refusal of a payment to an ordinary wallet can be lifted if and only if it is not barred and not settled already. */
  lemma RefusalIsForGoodIff(a: Accounts, c: SettleCall)
    requires c.wallet.Wallet?
    ensures CanBeLifted(a, c) <==> !Barred(a, c) && c.payment !in a.records
  {
    if !Barred(a, c) && c.payment !in a.records {
      CuresWork(a, c);
      assert NoSettlement(Cures(a, c));
    }
    forall calls | NoSettlement(calls) && SettleError(RunCalls(a, calls), c).None?
      ensures !Barred(a, c) && c.payment !in a.records
    {
      AcceptedWasNotBarred(a, calls, c);
    }
  }

  lemma AcceptedWasNotBarred(a: Accounts, calls: seq<Call>, c: SettleCall)
    requires SettleError(RunCalls(a, calls), c).None?
    ensures !Barred(a, c) && c.payment !in a.records
  {
    if Barred(a, c) {
      BarredOverCalls(a, calls, c);
      BarredIsRefused(RunCalls(a, calls), c);
    }
    AtMostOneSettlement(a, calls, c.payment);
  }
}
