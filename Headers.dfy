/** Request headers as Go's `http.Header` presents them to main.go: a map
    from canonical header names to values. `Header.Get` canonicalises the name
    it is asked for before the lookup and yields "" for a missing header. The
    model looks up each name in canonical form, so Get does not canonicalise
    again; CallerIdentityProperties proves, name by name, that the canonical
    form of main.go's spelling is the name looked up. */
module Headers {

  /** Header names in canonical form, each with its (first) value. */
  type HeaderMap = map<string, string>

  function ToUpper(c: char): char {
    if 'a' <= c <= 'z' then (c as int - 32) as char else c
  }

  function ToLower(c: char): char {
    if 'A' <= c <= 'Z' then (c as int + 32) as char else c
  }

  lemma CaseMapsFixDash(c: char)
    ensures ToUpper(c) == '-' <==> c == '-'
    ensures ToLower(c) == '-' <==> c == '-'
    ensures ToUpper(ToUpper(c)) == ToUpper(c) && ToUpper(ToLower(c)) == ToUpper(c)
    ensures ToLower(ToUpper(c)) == ToLower(c) && ToLower(ToLower(c)) == ToLower(c)
  {
    if 'a' <= c <= 'z' {
      assert ToUpper(c) as int == c as int - 32;
    } else if 'A' <= c <= 'Z' {
      assert ToLower(c) as int == c as int + 32;
    }
  }

  /** The canonicalisation loop of textproto: `upper` says whether the next
      byte starts a word, i.e. is first or follows a '-'. */
  function CanonicalFrom(k: string, upper: bool): (r: string)
    ensures |r| == |k|
    ensures forall i {:trigger r[i]} :: 0 <= i < |k| ==>
      r[i] == if (i == 0 && upper) || (0 < i && k[i - 1] == '-') then ToUpper(k[i]) else ToLower(k[i])
    decreases |k|
  {
    if k == [] then []
    else
      var c := if upper then ToUpper(k[0]) else ToLower(k[0]);
      [c] + CanonicalFrom(k[1..], k[0] == '-')
  }

  /** textproto.CanonicalMIMEHeaderKey for a name made of token bytes: the
      first letter and every letter after a '-' upper case, all others lower
      case ("X-API-Key" becomes "X-Api-Key"). */
  function CanonicalKey(k: string): (r: string)
    ensures |r| == |k|
    ensures forall i {:trigger r[i]} :: 0 <= i < |k| ==>
      r[i] == if i == 0 || k[i - 1] == '-' then ToUpper(k[i]) else ToLower(k[i])
  {
    CanonicalFrom(k, true)
  }

  /** Canonicalising a canonical name changes nothing, so a map keyed by
      canonical names is consistent with every lookup. */
  lemma CanonicalKeyIdempotent(k: string)
    ensures CanonicalKey(CanonicalKey(k)) == CanonicalKey(k)
  {
    var r := CanonicalKey(k);
    var rr := CanonicalKey(r);
    forall i | 0 <= i < |k| ensures rr[i] == r[i] {
      CaseMapsFixDash(k[i]);
      if 0 < i {
        CaseMapsFixDash(k[i - 1]);
      }
    }
  }

  /** Byte `i` of the canonical form of `k`. */
  function CanonicalByte(k: string, i: nat): char
    requires i < |k|
  {
    if i == 0 || k[i - 1] == '-' then ToUpper(k[i]) else ToLower(k[i])
  }

  /** `r` is `k` with every byte cased by the canonical rule. */
  predicate CanonicalOf(k: string, r: string) {
    |r| == |k| && forall i :: 0 <= i < |k| ==> r[i] == CanonicalByte(k, i)
  }

  /** CanonicalOf characterises CanonicalKey: the converse of its contract. */
  lemma CanonicalKeyOf(k: string, r: string)
    requires CanonicalOf(k, r)
    ensures CanonicalKey(k) == r
  {
  }

  /** Canonicalisation works word by word: a '-' starts a new word. */
  lemma CanonicalOfDashed(a: string, ca: string, b: string, cb: string)
    requires CanonicalOf(a, ca) && CanonicalOf(b, cb)
    ensures CanonicalOf(a + "-" + b, ca + "-" + cb)
  {
    var k, r := a + "-" + b, ca + "-" + cb;
    forall i | 0 <= i < |k| ensures r[i] == CanonicalByte(k, i) {
      if i < |a| {
        assert k[i] == a[i] && r[i] == ca[i];
        if 0 < i {
          assert k[i - 1] == a[i - 1];
        }
      } else if i == |a| {
        assert k[i] == '-' && r[i] == '-';
      } else {
        var j := i - |a| - 1;
        assert k[i] == b[j] && r[i] == cb[j];
        if 0 < j {
          assert k[i - 1] == b[j - 1];
        }
      }
    }
  }

  /** A name that canonicalisation leaves as it is. */
  predicate IsCanonical(name: string) {
    CanonicalKey(name) == name
  }

  /** http.Header.Get for a canonical `key`: its value, or "" when absent. */
  function Get(h: HeaderMap, key: string): string {
    if key in h then h[key] else ""
  }
}
