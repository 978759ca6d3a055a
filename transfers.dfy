/**
 * The inner-instruction decoders of src/utils.ts: `decodeTokenTransfers`,
 * `decodeTokenTransfersChecked` and `decodeSystemCreateAccounts`.
 *
 * The binary layouts of the token and system programs are not part of this
 * model: each decoder is a function parameter that either yields the decoded
 * accounts and data or fails (the source's `decode` throwing, which the
 * decoders catch and skip).
 */
module Transfers {
  import opened Wrappers
  import opened Utils

  /** An inner (CPI) instruction of the top-level program instruction. */
  datatype InnerInstruction = InnerInstruction(programId: string, accounts: seq<string>, data: seq<bv8>)

  /**
   * A top-level instruction of a pool program: its 8-byte discriminator,
   * data, accounts, inner instructions and transaction id
   * (`ins.transaction?.id || ''`).
   */
  datatype Instruction = Instruction(
    d8: seq<bv8>, data: seq<bv8>, accounts: seq<string>, inner: seq<InnerInstruction>, transactionId: string)

  /** What the token program's `transfer` layout yields. */
  datatype DecodedTransfer = DecodedTransfer(source: string, destination: string, signer: string, amount: nat)

  /** What the token program's `transferChecked` layout yields. */
  datatype DecodedTransferChecked = DecodedTransferChecked(
    source: string, mint: string, destination: string, signer: string, amount: nat, decimals: nat)

  /** What the system program's `createAccount` layout yields. */
  datatype DecodedCreateAccount = DecodedCreateAccount(
    source: string, newAccount: string, lamports: nat, space: nat, owner: string)

  /** One token movement as the handlers consume it; `mint`/`decimals` only for checked transfers. */
  datatype Transfer = Transfer(
    source: string, destination: string, signer: string, amount: nat,
    mint: Option<string>, decimals: Option<nat>)

  datatype CreateAccount = CreateAccount(
    source: string, newAccount: string, lamports: nat, space: nat, owner: string)

  /** The three layout decoders. */
  datatype Codecs = Codecs(
    transfer: InnerInstruction -> Option<DecodedTransfer>,
    transferChecked: InnerInstruction -> Option<DecodedTransferChecked>,
    createAccount: InnerInstruction -> Option<DecodedCreateAccount>)

  // ---------------------------------------------------------------------
  // Specifications, defined from the last element so that loops can follow them
  // ---------------------------------------------------------------------

  /** `inner.filter(f => f.programId.toLowerCase() === program.toLowerCase())`. */
  function ProgramInstructions(inner: seq<InnerInstruction>, program: string): (r: seq<InnerInstruction>)
    ensures |r| <= |inner|
    ensures forall ix :: ix in r ==> ix in inner && SameIgnoringCase(ix.programId, program)
    decreases |inner|
  {
    if |inner| == 0 then []
    else
      var last := inner[|inner| - 1];
      ProgramInstructions(inner[..|inner| - 1], program)
        + (if SameIgnoringCase(last.programId, program) then [last] else [])
  }

  /** The entry one token instruction contributes to `decodeTokenTransfers`, if any. */
  function TransferOf(ix: InnerInstruction, codecs: Codecs): Option<Transfer> {
    match codecs.transfer(ix)
    case None => None
    case Some(d) =>
      if !Present(d.source) || !Present(d.destination) then None
      else Some(Transfer(d.source, d.destination, d.signer, d.amount, None, None))
  }

  /** The entry one token instruction contributes to `decodeTokenTransfersChecked`, if any. */
  function CheckedTransferOf(ix: InnerInstruction, codecs: Codecs): Option<Transfer> {
    match codecs.transferChecked(ix)
    case None => None
    case Some(d) =>
      if !Present(d.source) || !Present(d.destination) || !Present(d.mint) then None
      else Some(Transfer(d.source, d.destination, d.signer, d.amount, Some(d.mint), Some(d.decimals)))
  }

  /** The entry one system instruction contributes to `decodeSystemCreateAccounts`, if any. */
  function CreateAccountOf(ix: InnerInstruction, codecs: Codecs): Option<CreateAccount> {
    match codecs.createAccount(ix)
    case None => None
    case Some(d) =>
      if !Present(d.source) || !Present(d.newAccount) then None
      else Some(CreateAccount(d.source, d.newAccount, d.lamports, d.space, d.owner))
  }

  function DecodedTransfers(tokenIns: seq<InnerInstruction>, codecs: Codecs): (r: seq<Transfer>)
    ensures |r| <= |tokenIns|
    ensures forall t :: t in r ==> Present(t.source) && Present(t.destination) && t.mint.None?
    decreases |tokenIns|
  {
    if |tokenIns| == 0 then []
    else
      DecodedTransfers(tokenIns[..|tokenIns| - 1], codecs)
        + match TransferOf(tokenIns[|tokenIns| - 1], codecs) case Some(t) => [t] case None => []
  }

  function DecodedCheckedTransfers(tokenIns: seq<InnerInstruction>, codecs: Codecs): (r: seq<Transfer>)
    ensures |r| <= |tokenIns|
    ensures forall t :: t in r ==>
      Present(t.source) && Present(t.destination) && t.mint.Some? && Present(t.mint.value) && t.decimals.Some?
    decreases |tokenIns|
  {
    if |tokenIns| == 0 then []
    else
      DecodedCheckedTransfers(tokenIns[..|tokenIns| - 1], codecs)
        + match CheckedTransferOf(tokenIns[|tokenIns| - 1], codecs) case Some(t) => [t] case None => []
  }

  function DecodedCreateAccounts(systemIns: seq<InnerInstruction>, codecs: Codecs): (r: seq<CreateAccount>)
    ensures |r| <= |systemIns|
    ensures forall c :: c in r ==> Present(c.source) && Present(c.newAccount)
    decreases |systemIns|
  {
    if |systemIns| == 0 then []
    else
      DecodedCreateAccounts(systemIns[..|systemIns| - 1], codecs)
        + match CreateAccountOf(systemIns[|systemIns| - 1], codecs) case Some(c) => [c] case None => []
  }

  /** Everything `decodeTokenTransfers` returns for these inner instructions. */
  function TokenTransfers(inner: seq<InnerInstruction>, codecs: Codecs): seq<Transfer> {
    DecodedTransfers(ProgramInstructions(inner, TOKEN_PROGRAM_ID), codecs)
  }

  function TokenTransfersChecked(inner: seq<InnerInstruction>, codecs: Codecs): seq<Transfer> {
    DecodedCheckedTransfers(ProgramInstructions(inner, TOKEN_PROGRAM_ID), codecs)
  }

  function SystemCreateAccounts(inner: seq<InnerInstruction>, codecs: Codecs): seq<CreateAccount> {
    DecodedCreateAccounts(ProgramInstructions(inner, SYSTEM_PROGRAM_ID), codecs)
  }

  // ---------------------------------------------------------------------
  // The decoders as the source writes them: a filter, then a loop
  // ---------------------------------------------------------------------

  method FilterProgram(inner: seq<InnerInstruction>, program: string) returns (selected: seq<InnerInstruction>)
    ensures selected == ProgramInstructions(inner, program)
  {
    selected := [];
    var i := 0;
    while i < |inner|
      invariant 0 <= i <= |inner|
      invariant selected == ProgramInstructions(inner[..i], program)
    {
      assert inner[..i + 1][..i] == inner[..i];
      if ToLower(inner[i].programId) == ToLower(program) {
        selected := selected + [inner[i]];
      }
      i := i + 1;
    }
    assert inner[..i] == inner;
  }

  method DecodeTokenTransfers(inner: seq<InnerInstruction>, codecs: Codecs) returns (transfers: seq<Transfer>)
    ensures transfers == TokenTransfers(inner, codecs)
  {
    var tokenInstructions := FilterProgram(inner, TOKEN_PROGRAM_ID);
    transfers := [];
    var i := 0;
    while i < |tokenInstructions|
      invariant 0 <= i <= |tokenInstructions|
      invariant transfers == DecodedTransfers(tokenInstructions[..i], codecs)
    {
      assert tokenInstructions[..i + 1][..i] == tokenInstructions[..i];
      var decoded := codecs.transfer(tokenInstructions[i]);
      if decoded.Some? && Present(decoded.value.source) && Present(decoded.value.destination) {
        var d := decoded.value;
        transfers := transfers + [Transfer(d.source, d.destination, d.signer, d.amount, None, None)];
      }
      i := i + 1;
    }
    assert tokenInstructions[..i] == tokenInstructions;
  }

  method DecodeTokenTransfersChecked(inner: seq<InnerInstruction>, codecs: Codecs) returns (transfers: seq<Transfer>)
    ensures transfers == TokenTransfersChecked(inner, codecs)
  {
    var tokenInstructions := FilterProgram(inner, TOKEN_PROGRAM_ID);
    transfers := [];
    var i := 0;
    while i < |tokenInstructions|
      invariant 0 <= i <= |tokenInstructions|
      invariant transfers == DecodedCheckedTransfers(tokenInstructions[..i], codecs)
    {
      assert tokenInstructions[..i + 1][..i] == tokenInstructions[..i];
      var decoded := codecs.transferChecked(tokenInstructions[i]);
      if decoded.Some? && Present(decoded.value.source) && Present(decoded.value.destination)
         && Present(decoded.value.mint)
      {
        var d := decoded.value;
        transfers := transfers + [Transfer(d.source, d.destination, d.signer, d.amount, Some(d.mint), Some(d.decimals))];
      }
      i := i + 1;
    }
    assert tokenInstructions[..i] == tokenInstructions;
  }

  method DecodeSystemCreateAccounts(inner: seq<InnerInstruction>, codecs: Codecs) returns (accounts: seq<CreateAccount>)
    ensures accounts == SystemCreateAccounts(inner, codecs)
  {
    var systemInstructions := FilterProgram(inner, SYSTEM_PROGRAM_ID);
    accounts := [];
    var i := 0;
    while i < |systemInstructions|
      invariant 0 <= i <= |systemInstructions|
      invariant accounts == DecodedCreateAccounts(systemInstructions[..i], codecs)
    {
      assert systemInstructions[..i + 1][..i] == systemInstructions[..i];
      var decoded := codecs.createAccount(systemInstructions[i]);
      if decoded.Some? && Present(decoded.value.source) && Present(decoded.value.newAccount) {
        var d := decoded.value;
        accounts := accounts + [CreateAccount(d.source, d.newAccount, d.lamports, d.space, d.owner)];
      }
      i := i + 1;
    }
    assert systemInstructions[..i] == systemInstructions;
  }

  // ---------------------------------------------------------------------
  // Properties
  // ---------------------------------------------------------------------

  lemma {:induction false} ProgramInstructionsAppend(a: seq<InnerInstruction>, b: seq<InnerInstruction>, program: string)
    ensures ProgramInstructions(a + b, program) == ProgramInstructions(a, program) + ProgramInstructions(b, program)
    decreases |b|
  {
    if |b| > 0 {
      var b' := b[..|b| - 1];
      assert (a + b)[..|a + b| - 1] == a + b';
      ProgramInstructionsAppend(a, b', program);
    } else {
      assert a + b == a;
    }
  }

  lemma {:induction false} DecodedTransfersAppend(a: seq<InnerInstruction>, b: seq<InnerInstruction>, codecs: Codecs)
    ensures DecodedTransfers(a + b, codecs) == DecodedTransfers(a, codecs) + DecodedTransfers(b, codecs)
    decreases |b|
  {
    if |b| > 0 {
      var b' := b[..|b| - 1];
      assert (a + b)[..|a + b| - 1] == a + b';
      DecodedTransfersAppend(a, b', codecs);
    } else {
      assert a + b == a;
    }
  }

  /**
   * Transfers come out in inner-instruction order: decoding two consecutive
   * runs of inner instructions is decoding each run and concatenating.
   */
  lemma TokenTransfersAppend(a: seq<InnerInstruction>, b: seq<InnerInstruction>, codecs: Codecs)
    ensures TokenTransfers(a + b, codecs) == TokenTransfers(a, codecs) + TokenTransfers(b, codecs)
  {
    ProgramInstructionsAppend(a, b, TOKEN_PROGRAM_ID);
    DecodedTransfersAppend(ProgramInstructions(a, TOKEN_PROGRAM_ID), ProgramInstructions(b, TOKEN_PROGRAM_ID), codecs);
  }

  /** A single inner instruction yields a transfer exactly when it is a token-program `transfer` with both accounts. */
  lemma SingleTokenTransfer(ix: InnerInstruction, codecs: Codecs)
    ensures |TokenTransfers([ix], codecs)| <= 1
    ensures |TokenTransfers([ix], codecs)| == 1 <==>
      IsTokenProgram(ix.programId) && codecs.transfer(ix).Some?
      && Present(codecs.transfer(ix).value.source) && Present(codecs.transfer(ix).value.destination)
    ensures |TokenTransfers([ix], codecs)| == 1 ==>
      TokenTransfers([ix], codecs)[0].amount == codecs.transfer(ix).value.amount
  {
    assert [ix][..0] == [];
    if IsTokenProgram(ix.programId) {
      assert ProgramInstructions([ix], TOKEN_PROGRAM_ID) == [ix];
      assert [ix][..0] == [];
    } else {
      assert ProgramInstructions([ix], TOKEN_PROGRAM_ID) == [];
    }
  }

  /** Inner instructions of other programs contribute nothing. */
  lemma {:induction false} ForeignProgramsIgnored(inner: seq<InnerInstruction>, codecs: Codecs)
    requires forall i :: 0 <= i < |inner| ==> !IsTokenProgram(inner[i].programId)
    ensures ProgramInstructions(inner, TOKEN_PROGRAM_ID) == []
    ensures TokenTransfers(inner, codecs) == []
    ensures TokenTransfersChecked(inner, codecs) == []
    decreases |inner|
  {
    if |inner| > 0 {
      ForeignProgramsIgnored(inner[..|inner| - 1], codecs);
    }
  }
}
