/**
 * The net-flow accounting every handler of src/damm/processor.ts and
 * src/dlmm/processor.ts performs on the instruction's token transfers, and
 * the sign rules that classify the result.
 *
 * A transfer into a vault is a deposit, a transfer out of it a withdrawal;
 * the four sums are independent, so one transfer between the two vaults
 * counts on both sides.  `netFlow = deposit - withdraw` is the change of the
 * pool's reserve.
 */
module NetFlow {
  import opened Wrappers
  import opened Transfers

  datatype Flows = Flows(depositX: nat, withdrawX: nat, depositY: nat, withdrawY: nat) {
    function NetX(): int { depositX - withdrawX }
    function NetY(): int { depositY - withdrawY }
  }

  /** The total amount sent to `vault`. */
  function DepositsTo(transfers: seq<Transfer>, vault: string): nat
    decreases |transfers|
  {
    if |transfers| == 0 then 0
    else
      var t := transfers[|transfers| - 1];
      DepositsTo(transfers[..|transfers| - 1], vault) + (if t.destination == vault then t.amount else 0)
  }

  /** The total amount sent out of `vault`. */
  function WithdrawalsFrom(transfers: seq<Transfer>, vault: string): nat
    decreases |transfers|
  {
    if |transfers| == 0 then 0
    else
      var t := transfers[|transfers| - 1];
      WithdrawalsFrom(transfers[..|transfers| - 1], vault) + (if t.source == vault then t.amount else 0)
  }

  function FlowsOf(transfers: seq<Transfer>, vaultX: string, vaultY: string): Flows {
    Flows(DepositsTo(transfers, vaultX), WithdrawalsFrom(transfers, vaultX),
          DepositsTo(transfers, vaultY), WithdrawalsFrom(transfers, vaultY))
  }

  /** The accumulation loop each handler runs over its transfers. */
  method AccumulateFlows(transfers: seq<Transfer>, vaultX: string, vaultY: string) returns (flows: Flows)
    ensures flows == FlowsOf(transfers, vaultX, vaultY)
  {
    var depositX: nat, withdrawX: nat, depositY: nat, withdrawY: nat := 0, 0, 0, 0;
    var i := 0;
    while i < |transfers|
      invariant 0 <= i <= |transfers|
      invariant Flows(depositX, withdrawX, depositY, withdrawY) == FlowsOf(transfers[..i], vaultX, vaultY)
    {
      assert transfers[..i + 1][..i] == transfers[..i];
      var t := transfers[i];
      if t.destination == vaultX {
        depositX := depositX + t.amount;
      }
      if t.source == vaultX {
        withdrawX := withdrawX + t.amount;
      }
      if t.destination == vaultY {
        depositY := depositY + t.amount;
      }
      if t.source == vaultY {
        withdrawY := withdrawY + t.amount;
      }
      i := i + 1;
    }
    assert transfers[..i] == transfers;
    flows := Flows(depositX, withdrawX, depositY, withdrawY);
  }

  // ---------------------------------------------------------------------
  // Properties of the accounting
  // ---------------------------------------------------------------------

  lemma {:induction false} DepositsAppend(a: seq<Transfer>, b: seq<Transfer>, vault: string)
    ensures DepositsTo(a + b, vault) == DepositsTo(a, vault) + DepositsTo(b, vault)
    ensures WithdrawalsFrom(a + b, vault) == WithdrawalsFrom(a, vault) + WithdrawalsFrom(b, vault)
    decreases |b|
  {
    if |b| == 0 {
      assert a + b == a;
    } else {
      var b' := b[..|b| - 1];
      assert (a + b)[..|a + b| - 1] == a + b';
      DepositsAppend(a, b', vault);
    }
  }

  /** Net flows are additive: splitting the transfer list splits the flows. */
  lemma FlowsAppend(a: seq<Transfer>, b: seq<Transfer>, vaultX: string, vaultY: string)
    ensures FlowsOf(a + b, vaultX, vaultY).NetX() == FlowsOf(a, vaultX, vaultY).NetX() + FlowsOf(b, vaultX, vaultY).NetX()
    ensures FlowsOf(a + b, vaultX, vaultY).NetY() == FlowsOf(a, vaultX, vaultY).NetY() + FlowsOf(b, vaultX, vaultY).NetY()
  {
    DepositsAppend(a, b, vaultX);
    DepositsAppend(a, b, vaultY);
  }

  /** One transfer from the X vault to the Y vault moves its amount out of X and into Y. */
  lemma VaultToVaultCountsTwice(t: Transfer, vaultX: string, vaultY: string)
    requires t.source == vaultX && t.destination == vaultY && vaultX != vaultY
    ensures FlowsOf([t], vaultX, vaultY) == Flows(0, t.amount, t.amount, 0)
    ensures FlowsOf([t], vaultX, vaultY).NetX() == -(t.amount as int)
    ensures FlowsOf([t], vaultX, vaultY).NetY() == t.amount
  {
    assert [t][..0] == [];
    assert DepositsTo([t], vaultX) == 0 && WithdrawalsFrom([t], vaultX) == t.amount;
    assert DepositsTo([t], vaultY) == t.amount && WithdrawalsFrom([t], vaultY) == 0;
  }

  /** Transfers that touch neither vault leave all four sums at zero. */
  lemma {:induction false} UnrelatedTransfersIgnored(transfers: seq<Transfer>, vaultX: string, vaultY: string)
    requires forall i :: 0 <= i < |transfers| ==>
      transfers[i].source !in {vaultX, vaultY} && transfers[i].destination !in {vaultX, vaultY}
    ensures FlowsOf(transfers, vaultX, vaultY) == Flows(0, 0, 0, 0)
    decreases |transfers|
  {
    if |transfers| > 0 {
      UnrelatedTransfersIgnored(transfers[..|transfers| - 1], vaultX, vaultY);
    }
  }

  // ---------------------------------------------------------------------
  // Swap direction
  // ---------------------------------------------------------------------

  /** The direction and amounts a handler records for a swap. */
  datatype SwapLeg = SwapLeg(inputIsX: bool, amountIn: int, amountOut: int)

  /**
   * src/damm/processor.ts: X in and Y out when the X reserve grew and the Y
   * reserve shrank, the mirror case for Y, no swap for any other sign pattern.
   */
  function DammSwapLeg(netX: int, netY: int): (r: Option<SwapLeg>)
    ensures r.Some? <==> (netX > 0 && netY < 0) || (netY > 0 && netX < 0)
    ensures r.Some? ==> r.value.amountIn > 0 && r.value.amountOut > 0
  {
    if netX > 0 && netY < 0 then Some(SwapLeg(true, netX, -netY))
    else if netY > 0 && netX < 0 then Some(SwapLeg(false, netY, -netX))
    else None
  }

  /** The reserve changes a swap leg stands for: the input side grows, the output side shrinks. */
  function PoolFlowsOf(leg: SwapLeg): (int, int) {
    if leg.inputIsX then (leg.amountIn, -leg.amountOut) else (-leg.amountOut, leg.amountIn)
  }

  /** A DAMM swap leg accounts exactly for the observed net flows. */
  lemma DammSwapLegMatchesFlows(netX: int, netY: int)
    requires DammSwapLeg(netX, netY).Some?
    ensures PoolFlowsOf(DammSwapLeg(netX, netY).value) == (netX, netY)
  {
  }

  /** Conversely every genuine swap is classified back to itself. */
  lemma DammSwapLegRoundTrip(leg: SwapLeg)
    requires leg.amountIn > 0 && leg.amountOut > 0
    ensures DammSwapLeg(PoolFlowsOf(leg).0, PoolFlowsOf(leg).1) == Some(leg)
  {
  }

  /**
   * src/dlmm/processor.ts: X is taken as the input when the X reserve
   * shrank and the Y reserve grew, the mirror case for Y, no swap otherwise.
   */
  function DlmmSwapLeg(netX: int, netY: int): (r: Option<SwapLeg>)
    ensures r.Some? <==> (netX < 0 && netY > 0) || (netY < 0 && netX > 0)
    ensures r.Some? ==> r.value.amountIn > 0 && r.value.amountOut > 0
  {
    if netX < 0 && netY > 0 then Some(SwapLeg(true, -netX, netY))
    else if netY < 0 && netX > 0 then Some(SwapLeg(false, -netY, netX))
    else None
  }

  function Mirrored(leg: SwapLeg): SwapLeg {
    SwapLeg(!leg.inputIsX, leg.amountOut, leg.amountIn)
  }

  /**
   * Both processors accept exactly the same sign patterns, but the DLMM one
   * reports the opposite direction: its input is the token the pool paid out.
   */
  lemma DlmmSwapLegMirrorsDamm(netX: int, netY: int)
    ensures DlmmSwapLeg(netX, netY).Some? <==> DammSwapLeg(netX, netY).Some?
    ensures DlmmSwapLeg(netX, netY).Some? ==>
      DlmmSwapLeg(netX, netY).value == Mirrored(DammSwapLeg(netX, netY).value)
  {
  }

  /** So a DLMM leg never reproduces the observed flows: it names them backwards. */
  lemma DlmmSwapLegReversesFlows(netX: int, netY: int)
    requires DlmmSwapLeg(netX, netY).Some?
    ensures PoolFlowsOf(DlmmSwapLeg(netX, netY).value) == (-netX, -netY)
  {
  }

  // ---------------------------------------------------------------------
  // Liquidity guards and clamping
  // ---------------------------------------------------------------------

  /** src/damm/processor.ts balanced add: proceeds only when both reserves grew. */
  predicate DammBalancedAddAccepted(netX: int, netY: int) {
    !(netX <= 0 || netY <= 0)
  }

  /** src/damm/processor.ts balanced remove: proceeds only when both reserves shrank. */
  predicate DammBalancedRemoveAccepted(netX: int, netY: int) {
    !(netX >= 0 || netY >= 0)
  }

  /** src/dlmm/processor.ts add: rejected only when neither reserve grew. */
  predicate DlmmAddAccepted(netX: int, netY: int) {
    !(netX <= 0 && netY <= 0)
  }

  /** src/dlmm/processor.ts remove: rejected only when neither reserve shrank. */
  predicate DlmmRemoveAccepted(netX: int, netY: int) {
    !(netX >= 0 && netY >= 0)
  }

  /** The DAMM guards are strictly stronger than the DLMM ones. */
  lemma DammGuardsStricter(netX: int, netY: int)
    ensures DammBalancedAddAccepted(netX, netY) ==> DlmmAddAccepted(netX, netY)
    ensures DammBalancedRemoveAccepted(netX, netY) ==> DlmmRemoveAccepted(netX, netY)
    ensures DlmmAddAccepted(1, 0) && !DammBalancedAddAccepted(1, 0)
    ensures DlmmRemoveAccepted(-1, 0) && !DammBalancedRemoveAccepted(-1, 0)
  {
  }

  /**
   * A DAMM balanced add and remove never both accept, while a DLMM add and
   * remove both accept exactly the flows that look like a swap.
   */
  lemma GuardOverlap(netX: int, netY: int)
    ensures !(DammBalancedAddAccepted(netX, netY) && DammBalancedRemoveAccepted(netX, netY))
    ensures DlmmAddAccepted(netX, netY) && DlmmRemoveAccepted(netX, netY) <==> DammSwapLeg(netX, netY).Some?
  {
  }

  /** `netFlow > 0 ? netFlow : 0`: the inflow side of a net flow. */
  function Inflow(net: int): (r: nat)
    ensures r == 0 || r == net
    ensures net > 0 ==> r == net
  {
    if net > 0 then net else 0
  }

  /** `netFlow < 0 ? -netFlow : 0`: the outflow side of a net flow. */
  function Outflow(net: int): (r: nat)
    ensures r == 0 || r == -net
    ensures net < 0 ==> r == -net
  {
    if net < 0 then -net else 0
  }

  /** Every net flow splits into an inflow and an outflow of which at least one is zero. */
  lemma InflowOutflowSplit(net: int)
    ensures Inflow(net) - Outflow(net) == net
    ensures Inflow(net) == 0 || Outflow(net) == 0
  {
  }

  // ---------------------------------------------------------------------
  // Initial reserves of a DLMM pair
  // ---------------------------------------------------------------------

  /**
   * src/dlmm/processor.ts `handleInitializePool`: the lamports of the last
   * token-program-owned account created at each reserve address (0 if none).
   */
  function InitialReserves(created: seq<CreateAccount>, reserveX: string, reserveY: string): (int, int)
    decreases |created|
  {
    if |created| == 0 then (0, 0)
    else
      var prev := InitialReserves(created[..|created| - 1], reserveX, reserveY);
      var c := created[|created| - 1];
      if c.owner == Utils.TOKEN_PROGRAM_ID then
        if c.newAccount == reserveX then (c.lamports, prev.1)
        else if c.newAccount == reserveY then (prev.0, c.lamports)
        else prev
      else prev
  }

  method ScanInitialReserves(created: seq<CreateAccount>, reserveX: string, reserveY: string)
    returns (reserveXAmount: int, reserveYAmount: int)
    ensures (reserveXAmount, reserveYAmount) == InitialReserves(created, reserveX, reserveY)
  {
    reserveXAmount, reserveYAmount := 0, 0;
    var i := 0;
    while i < |created|
      invariant 0 <= i <= |created|
      invariant (reserveXAmount, reserveYAmount) == InitialReserves(created[..i], reserveX, reserveY)
    {
      assert created[..i + 1][..i] == created[..i];
      var c := created[i];
      if c.owner == Utils.TOKEN_PROGRAM_ID {
        if c.newAccount == reserveX {
          reserveXAmount := c.lamports;
        } else if c.newAccount == reserveY {
          reserveYAmount := c.lamports;
        }
      }
      i := i + 1;
    }
    assert created[..i] == created;
  }

  /** The matching rule: a later creation at the X reserve replaces an earlier one, others are ignored. */
  lemma {:induction false} InitialReservesLastWins(created: seq<CreateAccount>, c: CreateAccount, reserveX: string, reserveY: string)
    ensures c.owner == Utils.TOKEN_PROGRAM_ID && c.newAccount == reserveX ==>
      InitialReserves(created + [c], reserveX, reserveY).0 == c.lamports
    ensures c.owner != Utils.TOKEN_PROGRAM_ID || c.newAccount !in {reserveX, reserveY} ==>
      InitialReserves(created + [c], reserveX, reserveY) == InitialReserves(created, reserveX, reserveY)
  {
    assert (created + [c])[..|created|] == created;
  }

  /** With no token-program-owned creations at the reserve addresses both amounts default to 0. */
  lemma {:induction false} InitialReservesDefault(created: seq<CreateAccount>, reserveX: string, reserveY: string)
    requires forall i :: 0 <= i < |created| ==>
      created[i].owner != Utils.TOKEN_PROGRAM_ID || created[i].newAccount !in {reserveX, reserveY}
    ensures InitialReserves(created, reserveX, reserveY) == (0, 0)
    decreases |created|
  {
    if |created| > 0 {
      InitialReservesDefault(created[..|created| - 1], reserveX, reserveY);
    }
  }
}
