/** JavaScript value conventions the game code leans on: optional values
    (`undefined`/`null`), the `||` and `??` defaulting operators, truthiness
    of strings and Phaser's numeric clamp. */
module Js {

  /** A value that may be absent (`undefined` or `null` in the source). */
  datatype Option<+T> = None | Some(value: T) {

    /** The value, or `default` when absent. */
    function GetOr(default: T): T {
      match this
      case Some(v) => v
      case None => default
    }
  }

  /** A JavaScript promise as seen by the caller: it settles at most once. */
  datatype Promise<+T> = Pending | Resolved(value: T) | Rejected(reason: string)

  /** `resolve`/`reject` on a promise: only the first settlement takes effect. */
  function Settle<T>(p: Promise<T>, outcome: Promise<T>): (r: Promise<T>)
    ensures p.Pending? ==> r == outcome
    ensures !p.Pending? ==> r == p
  {
    if p.Pending? then outcome else p
  }

  /** A string is truthy unless absent or empty. */
  predicate Truthy(s: Option<string>) {
    s.Some? && s.value != ""
  }

  /** `a || d` for an optional integer: absent and `0` are falsy. */
  function OrInt(a: Option<int>, d: int): int {
    if a.Some? && a.value != 0 then a.value else d
  }

  /** `a || d` for an optional real: absent and `0` are falsy. */
  function OrReal(a: Option<real>, d: real): real {
    if a.Some? && a.value != 0.0 then a.value else d
  }

  /** `a || d` for an optional string: absent and `""` are falsy. */
  function OrStr(a: Option<string>, d: string): string {
    if Truthy(a) then a.value else d
  }

  /** `a || d` where the left operand is a string slot that may be empty. */
  function OrId(a: Option<string>, d: Option<string>): Option<string> {
    if Truthy(a) then a else d
  }

  /** `a ?? d`: only an absent value is replaced; `0`, `""` and `false` are kept. */
  function Coalesce<T>(a: Option<T>, d: T): T {
    a.GetOr(d)
  }

  /** `Phaser.Math.Clamp(v, lo, hi)`, written as `Math.max(lo, Math.min(hi, v))`. */
  function Clamp(v: int, lo: int, hi: int): int {
    var m := if hi < v then hi else v;
    if lo > m then lo else m
  }

  function Max(a: int, b: int): int {
    if a < b then b else a
  }

  function Min(a: int, b: int): int {
    if a < b then a else b
  }

  /** `||` supplies the default for `0` while `??` keeps it. */
  lemma OrVersusCoalesceOnZero(d: int)
    requires d != 0
    ensures OrInt(Some(0), d) == d
    ensures Coalesce(Some(0), d) == 0
  {
  }

  /** Phaser's clamp never goes below its lower bound, and stays within
      `[lo, hi]` whenever that interval is non-empty. */
  lemma ClampBounds(v: int, lo: int, hi: int)
    ensures Clamp(v, lo, hi) >= lo
    ensures lo <= hi ==> lo <= Clamp(v, lo, hi) <= hi
    ensures lo <= v <= hi ==> Clamp(v, lo, hi) == v
  {
  }
}
