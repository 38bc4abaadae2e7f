/** Identifier generation (`_new_id`) and the clock (`_now_iso`), with the
    entropy source and the clock passed in explicitly. */
module Ids {
  import opened JsonValues

  predicate IsHexDigit(c: char) {
    '0' <= c <= '9' || 'a' <= c <= 'f'
  }

  /** The first 12 characters of `uuid4().hex`: lower-case hexadecimal. */
  predicate IsHex12(s: string) {
    |s| == 12 && forall i :: 0 <= i < 12 ==> IsHexDigit(s[i])
  }

  type Hex12 = s: string | IsHex12(s) witness "000000000000"

  /** The outside world the core draws on. Every call to `_new_id` or to
      `_now_iso` is one draw; draw number `k` reads `hex(k)` or `clock(k)`.
      Operations take the number of the next draw and return the one after
      their last draw. */
  datatype Env = Env(hex: nat -> Hex12, clock: nat -> string)

  /** The shape of an id made by `_new_id(prefix)`: `<prefix>-<12 hex>`. */
  predicate IsGeneratedId(id: string, prefix: string) {
    && |id| == |prefix| + 13
    && id[..|prefix|] == prefix
    && id[|prefix|] == '-'
    && IsHex12(id[|prefix| + 1..])
  }

  /** `_new_id(prefix)`, given the random part it draws. */
  function NewId(prefix: string, hex: Hex12): (id: string)
    ensures IsGeneratedId(id, prefix)
  {
    var id := prefix + "-" + hex;
    assert id[..|prefix|] == prefix;
    assert id[|prefix| + 1..] == hex;
    id
  }

  /** The `supplied or _new_id(prefix)` idiom: a non-empty supplied id is
      kept as it is and draws nothing; otherwise one id is drawn. */
  function PickId(supplied: Option<string>, prefix: string, env: Env, at: nat): (r: (string, nat))
    ensures r.0 != ""
    ensures Truthy(supplied) ==> r.0 == supplied.value && r.1 == at
    ensures !Truthy(supplied) ==> IsGeneratedId(r.0, prefix) && r.1 == at + 1
  {
    if Truthy(supplied) then (supplied.value, at)
    else (NewId(prefix, env.hex(at)), at + 1)
  }

  /** Ids generated under two different prefixes never coincide, whatever
      the random parts: equal lengths force equal prefixes. */
  lemma GeneratedIdsDiffer(a: string, pa: string, b: string, pb: string)
    requires IsGeneratedId(a, pa) && IsGeneratedId(b, pb)
    requires pa != pb
    ensures a != b
  {
  }
}
