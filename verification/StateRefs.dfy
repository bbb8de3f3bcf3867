/** How state versions are named in the tier: stateRef and the handle of
    internal/backend/stateless.go. */
module StateRefs {

  function Digit(d: nat): (c: char)
    requires d < 10
    ensures '0' <= c <= '9'
  {
    (d + 48) as char
  }

  /** What %d prints. */
  function Decimal(n: nat): (text: string)
    ensures text != [] && forall i | 0 <= i < |text| :: '0' <= text[i] <= '9'
  {
    if n < 10 then [Digit(n)] else Decimal(n / 10) + [Digit(n % 10)]
  }

  function Handle(sid: string): string { "kv:" + sid }

  function StateRef(handle: string, version: nat): string {
    handle + ":" + Decimal(version)
  }

  predicate HasPrefix(text: string, prefix: string) { prefix <= text }

  predicate HasColon(text: string) { ':' in text }

  lemma {:induction false} DecimalInjective(m: nat, n: nat)
    requires Decimal(m) == Decimal(n)
    ensures m == n
  {
    if m >= 10 && n >= 10 {
      var a, b := Decimal(m / 10), Decimal(n / 10);
      assert a == Decimal(m)[..|a|] && b == Decimal(n)[..|b|];
      assert Decimal(m)[|a|] == Digit(m % 10) && Decimal(n)[|b|] == Digit(n % 10);
      DecimalInjective(m / 10, n / 10);
    }
  }

  /** Where the last colon is, when the part after it has none. */
  lemma LastColonAt(x: string, p: string)
    requires !HasColon(p)
    ensures (x + ":" + p)[|x|] == ':'
    ensures forall i | |x| < i < |x + ":" + p| :: (x + ":" + p)[i] != ':'
  {
    forall i | |x| < i < |x + ":" + p| ensures (x + ":" + p)[i] != ':' {
      assert (x + ":" + p)[i] == p[i - |x| - 1];
    }
  }

  lemma LastColon(x: string, p: string, y: string, q: string)
    requires x + ":" + p == y + ":" + q && !HasColon(p) && !HasColon(q)
    ensures x == y && p == q
  {
    var whole := x + ":" + p;
    LastColonAt(x, p);
    LastColonAt(y, q);
    assert |x| == |y|;
    assert x == whole[..|x|] && y == whole[..|x|];
    assert p == whole[|x|+1..] && q == whole[|x|+1..];
  }

  /** Distinct versions have distinct names, whatever characters a handle uses. */
  lemma StateRefInjective(h: string, m: nat, g: string, n: nat)
    ensures StateRef(h, m) == StateRef(g, n) <==> h == g && m == n
  {
    if StateRef(h, m) == StateRef(g, n) {
      LastColon(h, Decimal(m), g, Decimal(n));
      DecimalInjective(m, n);
    }
  }

  /** The prefix delete of a closing session takes exactly its own versions, and
      those of sessions whose name continues past a colon. */
  lemma PrefixTakes(sid: string, other: string, version: nat)
    ensures HasPrefix(StateRef(Handle(other), version), Handle(sid) + ":")
       <==> other == sid || HasPrefix(other, sid + ":")
  {
    var whole, prefix := StateRef(Handle(other), version), Handle(sid) + ":";
    assert whole == "kv:" + (other + ":" + Decimal(version)) && prefix == "kv:" + (sid + ":");
    var rest, own := other + ":" + Decimal(version), sid + ":";
    assert prefix <= whole <==> own <= rest by {
      assert prefix[3..] == own && whole[3..] == rest;
      if own <= rest {
        assert rest[..|own|] == own;
        assert whole[..|prefix|] == "kv:" + rest[..|own|];
      }
    }
    PrefixOfRef(own, sid, other, version);
  }

  lemma PrefixOfRef(own: string, sid: string, other: string, version: nat)
    requires own == sid + ":"
    ensures own <= other + ":" + Decimal(version) <==> other == sid || own <= other
  {
    var rest := other + ":" + Decimal(version);
    LastColonAt(other, Decimal(version));
    assert rest[..|other|] == other && rest[..|other|+1] == other + ":";
    assert own <= rest ==> rest[|sid|] == ':' && |sid| <= |other|;
    if |sid| == |other| {
      assert own <= rest <==> own == rest[..|own|];
    } else if |sid| < |other| {
      assert rest[..|own|] == other[..|own|];
    }
  }

  lemma ColonInPrefix(sid: string, other: string)
    requires !HasColon(other)
    ensures !HasPrefix(other, sid + ":")
  {
    assert (sid + ":")[|sid|] == ':';
  }

  /** With session names free of colons the prefix delete is exact. */
  lemma CloseExact(sid: string, other: string, version: nat)
    requires !HasColon(other)
    ensures HasPrefix(StateRef(Handle(other), version), Handle(sid) + ":") <==> other == sid
  {
    PrefixTakes(sid, other, version);
    ColonInPrefix(sid, other);
  }

  /** Why a single version is never deleted as a prefix: it is a prefix of its
      own later versions. */
  lemma VersionIsPrefix(handle: string, version: nat, digit: nat)
    requires version > 0 && digit < 10
    ensures HasPrefix(StateRef(handle, 10 * version + digit), StateRef(handle, version))
    ensures StateRef(handle, 10 * version + digit) != StateRef(handle, version)
  {
    var longer := 10 * version + digit;
    assert longer / 10 == version && longer % 10 == digit;
    assert Decimal(longer) == Decimal(version) + [Digit(digit)];
    assert StateRef(handle, longer) == StateRef(handle, version) + [Digit(digit)];
  }
}
