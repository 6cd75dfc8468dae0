/**
 The canonical text of a cache key (controller/internal/cache/cache.go:59-74). Texts are sequences of bytes; the
 digest taken of the canonical text is not modelled.
 */
module CacheKey {
  import opened Common
  import opened Decimal

  datatype KeyInput = KeyInput(
    tenant: string, namespace: string, repository: string, workflow: string, lockfile: string, profile: string)

  const DEFAULT_TENANT := "default"

  const DEFAULT_NAMESPACE := "default"

  function WithDefaults(k: KeyInput): KeyInput {
    k.(tenant := if k.tenant == "" then DEFAULT_TENANT else k.tenant,
       namespace := if k.namespace == "" then DEFAULT_NAMESPACE else k.namespace)
  }

  function Fields(k: KeyInput): seq<string> {
    [k.tenant, k.namespace, k.repository, k.workflow, k.lockfile, k.profile]
  }

  /** "%d:%s" for each field */
  function Encode(fields: seq<string>): string {
    if fields == [] then [] else Numeral(|fields[0]|) + ":" + fields[0] + Encode(fields[1..])
  }

  /** The digits up to the first colon; None when there is no colon. */
  function Prefix(text: string): Option<string> {
    if text == [] then None
    else if text[0] == ':' then Some([])
    else
      var rest := Prefix(text[1..]);
      if rest.None? then None else Some([text[0]] + rest.value)
  }

  /** Reads `n` length-prefixed fields and nothing more. */
  function Decode(text: string, n: nat): Option<seq<string>> {
    if n == 0 then if text == [] then Some([]) else None
    else
      var digits := Prefix(text);
      if digits.None? || !AllDigits(digits.value) then None
      else
        var start, length := |digits.value| + 1, Value(digits.value);
        if start + length > |text| then None
        else
          var rest := Decode(text[start + length..], n - 1);
          if rest.None? then None else Some([text[start..start + length]] + rest.value)
  }

  lemma {:induction false} PrefixOfDigits(digits: string, rest: string)
    requires AllDigits(digits)
    ensures Prefix(digits + ":" + rest) == Some(digits)
  {
    var text := digits + ":" + rest;
    if digits != [] {
      PrefixOfDigits(digits[1..], rest);
      assert text[1..] == digits[1..] + ":" + rest;
      assert text[0] == digits[0] && IsDigit(digits[0]);
      assert digits == [digits[0]] + digits[1..];
    } else {
      assert text[0] == ':';
    }
  }

  /** The encoding decodes to exactly its fields. */
  lemma {:induction false} RoundTrip(fields: seq<string>)
    ensures Decode(Encode(fields), |fields|) == Some(fields)
  {
    if fields == [] {
    } else {
      var f, rest := fields[0], Encode(fields[1..]);
      var digits := Numeral(|f|);
      NumeralRoundTrip(|f|);
      PrefixOfDigits(digits, f + rest);
      var text := Encode(fields);
      assert text == digits + ":" + (f + rest);
      assert text[|digits| + 1..|digits| + 1 + |f|] == f && text[|digits| + 1 + |f|..] == rest;
      RoundTrip(fields[1..]);
      assert fields == [f] + fields[1..];
      assert Prefix(text) == Some(digits);
      assert Decode(rest, |fields| - 1) == Some(fields[1..]);
    }
  }

  /** Two inputs share a canonical text exactly when they are the same input once the defaults are filled in. */
  lemma CanonicalTextIsInjective(a: KeyInput, b: KeyInput)
    ensures Encode(Fields(WithDefaults(a))) == Encode(Fields(WithDefaults(b))) <==> WithDefaults(a) == WithDefaults(b)
  {
    var x, y := Fields(WithDefaults(a)), Fields(WithDefaults(b));
    RoundTrip(x);
    RoundTrip(y);
    if Encode(x) == Encode(y) {
      assert x == y;
      assert forall i | 0 <= i < 6 :: x[i] == y[i];
      assert x[0] == y[0] && x[1] == y[1] && x[2] == y[2] && x[3] == y[3] && x[4] == y[4] && x[5] == y[5];
    }
  }
}
