/** The machine words the agent counts with, and the few helpers every other module uses. */
module Words {

  datatype Option<+T> = None | Some(value: T)

  type u64 = x: int | 0 <= x < 0x1_0000_0000_0000_0000

  function Min(a: nat, b: nat): nat { if a <= b then a else b }

  function Max(a: nat, b: nat): nat { if a <= b then b else a }

  /** What is left of `n` in a 64-bit word. */
  function Wrap(n: nat): u64 {
    if n < 0x1_0000_0000_0000_0000 then n else Wrap(n - 0x1_0000_0000_0000_0000)
  }

  /** `AtomicU64::fetch_add`: wraps around. */
  function WrapAdd(a: nat, b: nat): u64 { Wrap(a + b) }

  /** `u64::saturating_add`. */
  function SatAdd(a: u64, b: u64): u64 { if a + b < 0x1_0000_0000_0000_0000 then a + b else 0xFFFF_FFFF_FFFF_FFFF }

  /** The saturated reading of an exact total. */
  function Sat(n: nat): u64 { if n < 0x1_0000_0000_0000_0000 then n else 0xFFFF_FFFF_FFFF_FFFF }

  /** The saturated reading is the total or the largest word, and saturating addition keeps it. */
  lemma SatMeaning(a: nat, b: nat)
    ensures Sat(a) == Min(a, 0x1_0000_0000_0000_0000 - 1)
    ensures SatAdd(Sat(a), Sat(b)) == Min(a + b, 0x1_0000_0000_0000_0000 - 1)
  {
  }

  /** How much `times` wraps of a 64-bit counter swallow. */
  ghost function Laps(times: nat): nat {
    if times == 0 then 0 else Laps(times - 1) + 0x1_0000_0000_0000_0000
  }

  /** `counted` stands for `exact`, up to whole wraps of a 64-bit counter. */
  ghost predicate Accounts(exact: nat, counted: nat) {
    exists times: nat :: exact == counted + Laps(times)
  }

  /** Below 2^64 nothing can have wrapped, so the account is exact. */
  lemma AccountsExact(exact: nat, counted: nat)
    requires Accounts(exact, counted) && exact < 0x1_0000_0000_0000_0000
    ensures exact == counted
  {
  }

  lemma AccountsSame(n: nat)
    ensures Accounts(n, n)
  {
    assert Laps(0) == 0;
  }

  /** Growing both sides alike keeps an account balanced. */
  lemma AccountsGrow(exact: nat, counted: nat, more: nat)
    requires Accounts(exact, counted)
    ensures Accounts(exact + more, counted + more)
  {
  }

  lemma {:induction false} AccountsWrapped(exact: nat, rest: nat, n: nat)
    requires Accounts(exact, rest + n)
    ensures Accounts(exact, rest + Wrap(n))
    decreases n
  {
    if n >= 0x1_0000_0000_0000_0000 {
      var times: nat :| exact == rest + n + Laps(times);
      assert Laps(times + 1) == Laps(times) + 0x1_0000_0000_0000_0000;
      AccountsWrapped(exact, rest, n - 0x1_0000_0000_0000_0000);
    }
  }

  /** A wrapping addition keeps an account balanced. */
  lemma AccountsWrap(exact: nat, rest: nat, a: nat, b: nat)
    requires Accounts(exact, rest + a + b)
    ensures Accounts(exact, rest + WrapAdd(a, b))
  {
    AccountsWrapped(exact, rest, a + b);
  }

  lemma SplitAt<T>(s: seq<T>, i: nat)
    requires i < |s|
    ensures s[..i] + [s[i]] + s[i + 1..] == s
  {
  }

  lemma Assoc<T>(a: seq<T>, b: seq<T>, c: seq<T>)
    ensures a + (b + c) == a + b + c
  {
  }

  /** Wrapping is reducing modulo 2^64. */
  lemma {:induction false} WrapIsMod(n: nat)
    ensures Wrap(n) == n % 0x1_0000_0000_0000_0000
  {
    if n >= 0x1_0000_0000_0000_0000 {
      WrapIsMod(n - 0x1_0000_0000_0000_0000);
    }
  }

  lemma {:induction false} WrapTwice(n: nat, c: nat)
    ensures Wrap(Wrap(n) + c) == Wrap(n + c)
  {
    if n >= 0x1_0000_0000_0000_0000 {
      WrapTwice(n - 0x1_0000_0000_0000_0000, c);
    }
  }

  /** Wrapping twice is wrapping once. */
  lemma WrapAddTwice(a: nat, b: nat, c: nat)
    ensures WrapAdd(WrapAdd(a, b), c) == WrapAdd(a, b + c)
  {
    WrapTwice(a + b, c);
  }
}
