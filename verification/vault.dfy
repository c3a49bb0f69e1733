/**
 * The Anchor program `talos_vault`
 * (talos_vault/programs/talos_vault/src/lib.rs): a vault account that records
 * its owner and a `u64` balance, with `initialize`, `deposit` and `withdraw`.
 *
 * A failed Solana instruction is rolled back by the runtime, so every failure
 * below leaves all accounts as they were, whether the source fails through a
 * `require!`, the `?` of a system-program transfer or a panicking `unwrap()`.
 */
module Vault {
  import opened Wrappers

  const U64Max: int := 0xFFFF_FFFF_FFFF_FFFF

  type u64 = x: int | 0 <= x <= U64Max

  /** An account address. */
  type Pubkey = seq<bv8>

  /** The program's own error codes. */
  datatype VaultError = Unauthorized | InsufficientFunds

  /** Every way an instruction of this program can fail. */
  datatype Failure =
    | ProgramError(error: VaultError)   // a `require!` of the program
    | TransferFailed                    // the system transfer: payer short of lamports, or payee overflow
    | Panicked                          // `unwrap()` of a failed checked operation, or lamport overflow

  /** The accounts one instruction sees: the vault's data and lamports, and its signer. */
  datatype Accounts = Accounts(owner: Pubkey, balance: u64, vaultLamports: u64, signer: Pubkey, signerLamports: u64)

  function TotalLamports(a: Accounts): int
  {
    a.vaultLamports + a.signerLamports
  }

  /**
   * The recorded balance is backed by the vault's lamports, and the lamports
   * of the two accounts together fit in a u64 (the total supply does).
   */
  ghost predicate Covered(a: Accounts)
  {
    a.balance <= a.vaultLamports && TotalLamports(a) <= U64Max
  }

  /** `deposit`: a system transfer from signer to vault, then `balance.checked_add(amount).unwrap()`. */
  function DepositSpec(a: Accounts, amount: u64): (r: Result<Accounts, Failure>)
    ensures r.Err? ==> r.error == TransferFailed || r.error == Panicked
    ensures r == Err(TransferFailed) <==> a.signerLamports < amount || a.vaultLamports + amount > U64Max
    ensures r == Err(Panicked) <==>
      a.signerLamports >= amount && a.vaultLamports + amount <= U64Max && a.balance + amount > U64Max
    ensures r.Ok? ==> && r.value.balance == a.balance + amount
                      && r.value.vaultLamports == a.vaultLamports + amount
                      && r.value.owner == a.owner && r.value.signer == a.signer
                      && TotalLamports(r.value) == TotalLamports(a)
    ensures Covered(a) ==> r != Err(Panicked) && (r.Ok? ==> Covered(r.value))
  {
    if a.signerLamports < amount || a.vaultLamports + amount > U64Max then Err(TransferFailed)
    else if a.balance + amount > U64Max then Err(Panicked)
    else Ok(a.(balance := a.balance + amount,
               vaultLamports := a.vaultLamports + amount,
               signerLamports := a.signerLamports - amount))
  }

  /**
   * `withdraw`: the authority check, then the funds check, then the lamport
   * moves and `balance.checked_sub(amount).unwrap()`.
   */
  function WithdrawSpec(a: Accounts, amount: u64): (r: Result<Accounts, Failure>)
    ensures r == Err(ProgramError(Unauthorized)) <==> a.signer != a.owner
    ensures r == Err(ProgramError(InsufficientFunds)) <==> a.signer == a.owner && amount > a.balance
    ensures r != Err(TransferFailed)
    ensures r.Ok? <==>
      a.signer == a.owner && amount <= a.balance && a.vaultLamports >= amount && a.signerLamports + amount <= U64Max
    ensures r == Err(Panicked) <==>
      a.signer == a.owner && amount <= a.balance && (a.vaultLamports < amount || a.signerLamports + amount > U64Max)
    ensures r.Ok? ==> && a.signer == a.owner && amount <= a.balance
                      && r.value.balance == a.balance - amount
                      && r.value.vaultLamports == a.vaultLamports - amount
                      && r.value.signerLamports == a.signerLamports + amount
                      && r.value.owner == a.owner && r.value.signer == a.signer
                      && TotalLamports(r.value) == TotalLamports(a)
    ensures Covered(a) ==> (r.Ok? <==> a.signer == a.owner && amount <= a.balance)
    ensures Covered(a) && r.Ok? ==> Covered(r.value)
  {
    if a.signer != a.owner then Err(ProgramError(Unauthorized))
    else if a.balance < amount then Err(ProgramError(InsufficientFunds))
    else if a.vaultLamports < amount || a.signerLamports + amount > U64Max then Err(Panicked)
    else Ok(a.(balance := a.balance - amount,
               vaultLamports := a.vaultLamports - amount,
               signerLamports := a.signerLamports + amount))
  }

  /** The two instructions that act on an initialised vault. */
  datatype Instruction = Deposit(amount: u64) | Withdraw(amount: u64)

  function Execute(a: Accounts, ins: Instruction): Result<Accounts, Failure>
  {
    match ins
    case Deposit(amount) => DepositSpec(a, amount)
    case Withdraw(amount) => WithdrawSpec(a, amount)
  }

  /** The accounts after one instruction; a failed one is rolled back. */
  function After(a: Accounts, ins: Instruction): Accounts
  {
    var r := Execute(a, ins);
    if r.Ok? then r.value else a
  }

  /** The accounts after a sequence of instructions by the same signer. */
  function Replay(a: Accounts, program: seq<Instruction>): Accounts
    decreases |program|
  {
    if program == [] then a else Replay(After(a, program[0]), program[1..])
  }

  /** Some instruction of `program` panics when run from `a`. */
  predicate SomePanic(a: Accounts, program: seq<Instruction>)
    decreases |program|
  {
    program != [] && (Execute(a, program[0]) == Err(Panicked) || SomePanic(After(a, program[0]), program[1..]))
  }

  /** Lamports are conserved: they only move between the vault and its signer. */
  lemma {:induction false} ReplayConservesLamports(a: Accounts, program: seq<Instruction>)
    ensures TotalLamports(Replay(a, program)) == TotalLamports(a)
    ensures Replay(a, program).owner == a.owner
    decreases |program|
  {
    if program != [] {
      ReplayConservesLamports(After(a, program[0]), program[1..]);
    }
  }

  /**
   * From a covered state the balance stays backed by lamports, and none of
   * the `unwrap()`s or lamport updates ever panics.
   */
  lemma {:induction false} CoveredVaultNeverPanics(a: Accounts, program: seq<Instruction>)
    requires Covered(a)
    ensures Covered(Replay(a, program))
    ensures !SomePanic(a, program)
    decreases |program|
  {
    if program != [] {
      CoveredVaultNeverPanics(After(a, program[0]), program[1..]);
    }
  }

  /** The result of an instruction as the program returns it, `Result<()>`. */
  function Status(r: Result<Accounts, Failure>): Result<(), Failure>
  {
    if r.Ok? then Ok(()) else Err(r.error)
  }

  /** A signer's system account. */
  class Wallet {
    const key: Pubkey
    var lamports: u64

    constructor (key: Pubkey, lamports: u64)
      ensures this.key == key && this.lamports == lamports
    {
      this.key := key;
      this.lamports := lamports;
    }
  }

  /** The vault account: `VaultState` and the lamports it holds. */
  class VaultAccount {
    var owner: Pubkey
    var balance: u64
    var lamports: u64

    function View(signer: Wallet): Accounts
      reads this, signer
    {
      Accounts(owner, balance, lamports, signer.key, signer.lamports)
    }

    /**
     * `initialize`: binds the vault to its signer with a zero balance.  The
     * new account starts with the lamports `rent` paid for it.
     */
    constructor Initialize(signer: Wallet, rent: u64)
      ensures owner == signer.key && balance == 0 && lamports == rent
    {
      owner := signer.key;
      balance := 0;
      lamports := rent;
    }

    method Deposit(signer: Wallet, amount: u64) returns (r: Result<(), Failure>)
      modifies this, signer
      ensures r == Status(DepositSpec(old(View(signer)), amount))
      ensures View(signer) == After(old(View(signer)), Instruction.Deposit(amount))
    {
      // `invoke` of the system transfer; its error is returned by `?`.
      if signer.lamports < amount || lamports + amount > U64Max {
        return Err(TransferFailed);
      }
      // `checked_add(..).unwrap()` panics after the transfer; the runtime
      // then discards the transfer, so nothing is committed before this test.
      if balance + amount > U64Max {
        return Err(Panicked);
      }
      signer.lamports := signer.lamports - amount;
      lamports := lamports + amount;
      balance := balance + amount;
      r := Ok(());
    }

    method Withdraw(signer: Wallet, amount: u64) returns (r: Result<(), Failure>)
      modifies this, signer
      ensures r == Status(WithdrawSpec(old(View(signer)), amount))
      ensures View(signer) == After(old(View(signer)), Instruction.Withdraw(amount))
    {
      if signer.key != owner {
        return Err(ProgramError(Unauthorized));
      }
      if balance < amount {
        return Err(ProgramError(InsufficientFunds));
      }
      // The lamport updates of lib.rs lines 56-57 are overflow-checked.
      if lamports < amount || signer.lamports + amount > U64Max {
        return Err(Panicked);
      }
      lamports := lamports - amount;
      signer.lamports := signer.lamports + amount;
      balance := balance - amount;
      r := Ok(());
    }
  }
}
