/**
 The host the contracts run on: addresses, machine integers, failure values,
 and the finite sums the accounting properties are stated with.
 */
module Host {

  datatype Address = Address(id: nat)

  datatype Option<+T> = None | Some(value: T) {
    function UnwrapOr(default: T): (r: T) {
      if Some? then value else default
    }
  }

  /** A call's value, or the error it fails with. */
  datatype Outcome<+T, +E> = Ok(value: T) | Err(error: E) {
    predicate IsFailure() { Err? }
    function PropagateFailure<U>(): Outcome<U, E> requires Err? { Err(error) }
    function Extract(): T requires Ok? { value }
  }

  /** A condition that a call insists on, or the error it fails with otherwise. */
  datatype Requirement<+E> = Pass | Fail(error: E) {
    predicate IsFailure() { Fail? }
    function PropagateFailure<U>(): Outcome<U, E> requires Fail? { Err(error) }
  }

  function Need<E>(condition: bool, error: E): Requirement<E> {
    if condition then Pass else Fail(error)
  }

  const I128_MAX: int := 0x7FFF_FFFF_FFFF_FFFF_FFFF_FFFF_FFFF_FFFF
  const I128_MIN: int := -I128_MAX - 1
  const U32_SIZE: nat := 0x1_0000_0000
  const U64_MAX: nat := 0xFFFF_FFFF_FFFF_FFFF

  predicate FitsI128(n: int) {
    I128_MIN <= n <= I128_MAX
  }

  /** `u32` addition in a release build: it wraps. */
  function AddU32(a: nat, b: nat): (r: nat)
    ensures r < U32_SIZE
    ensures r <= a + b
    ensures r == a + b <==> a + b < U32_SIZE
  {
    (a + b) % U32_SIZE
  }

  /** Rust's integer division by a positive divisor: the quotient truncates toward zero. */
  function TruncDiv(a: int, b: int): (q: int)
    requires b > 0
    ensures a >= 0 ==> q >= 0 && q * b <= a < (q + 1) * b
    ensures a <= 0 ==> q <= 0 && (q - 1) * b < a <= q * b
  {
    if a >= 0 then a / b else -((-a) / b)
  }

  /** Rust's integer division by any divisor but zero. */
  function Quot(a: int, b: int): int
    requires b != 0
  {
    if b > 0 then TruncDiv(a, b) else -TruncDiv(a, -b)
  }

  /** `i128` arithmetic in a release build: it wraps. */
  function WrapI128(n: int): (r: int)
    ensures FitsI128(r) && (FitsI128(n) ==> r == n)
  {
    (n - I128_MIN) % (I128_MAX - I128_MIN + 1) + I128_MIN
  }

  /** `i128` arithmetic that stops at either end. */
  function Saturate(n: int): int {
    if n > I128_MAX then I128_MAX else if n < I128_MIN then I128_MIN else n
  }

  function Get<K, V>(m: map<K, V>, k: K, default: V): (v: V) {
    if k in m then m[k] else default
  }

  // ------------------------------------------------------------- tokens by holder

  /** Receiving tokens: `held` is what the contract holds per token. */
  function TransferIn(held: map<Address, int>, token: Address, amount: int): map<Address, int> {
    held[token := Get(held, token, 0) + amount]
  }

  /** Paying tokens out, or `failure` when the contract does not hold enough. */
  function TransferOut<E>(held: map<Address, int>, token: Address, amount: int, failure: E): Outcome<map<Address,
                          int>, E> {
    if amount > Get(held, token, 0) then Err(failure) else Ok(held[token := Get(held, token, 0) - amount])
  }

  // -------------------------------------------------------------------- finite sums

  /** The sum of all values of a map. */
  ghost function Sum<K>(m: map<K, int>): int {
    if m == map[] then 0 else
      var k :| k in m;
      m[k] + Sum(m - {k})
  }

  /** Any key may be summed first, so `Sum` does not depend on the order chosen in its body. */
  lemma {:induction false} SumRemove<K>(m: map<K, int>, k: K)
    requires k in m
    ensures Sum(m) == m[k] + Sum(m - {k})
    decreases |m|
  {
    var p :| p in m && Sum(m) == m[p] + Sum(m - {p});
    if p != k {
      SumRemove(m - {p}, k);
      SumRemove(m - {k}, p);
      assert m - {p} - {k} == m - {k} - {p};
    }
  }

  lemma SumUpdate<K>(m: map<K, int>, k: K, v: int)
    ensures Sum(m[k := v]) == Sum(m) - Get(m, k, 0) + v
  {
    var n := m[k := v];
    SumRemove(n, k);
    assert n - {k} == m - {k};
    if k in m {
      SumRemove(m, k);
    } else {
      assert m - {k} == m;
    }
  }

  lemma {:induction false} SumNonNegative<K>(m: map<K, int>)
    requires forall k :: k in m ==> m[k] >= 0
    ensures Sum(m) >= 0
    decreases |m|
  {
    if m != map[] {
      var k :| k in m;
      SumRemove(m, k);
      SumNonNegative(m - {k});
    }
  }

  lemma SumAtLeast<K>(m: map<K, int>, k: K)
    requires forall j :: j in m ==> m[j] >= 0
    requires k in m
    ensures m[k] <= Sum(m)
  {
    SumRemove(m, k);
    SumNonNegative(m - {k});
  }
}
