/**
 * The header keys of `net/http`: `Header.Set` stores a value under the canonical form of its
 * key (`textproto.CanonicalMIMEHeaderKey`), replacing any earlier value under that form.
 */
module HeaderKeys {
  const ContentType: string := "Content-Type"
  const ApplicationJson: string := "application/json"

  /** The bytes RFC 7230 allows in a header field name (a `token`). */
  predicate IsTokenChar(c: char) {
    || ('a' <= c <= 'z') || ('A' <= c <= 'Z') || ('0' <= c <= '9')
    || c == '!' || ('#' <= c <= '\'') || c == '*' || c == '+' || c == '-' || c == '.'
    || c == '^' || c == '_' || c == '`' || c == '|' || c == '~'
  }

  function UpperAscii(c: char): char {
    if 'a' <= c <= 'z' then (c as int - 32) as char else c
  }

  function LowerAscii(c: char): char {
    if 'A' <= c <= 'Z' then (c as int + 32) as char else c
  }

  function CaseChar(upper: bool, c: char): char {
    if upper then UpperAscii(c) else LowerAscii(c)
  }

  /** Letters at the start and after `-` upper-cased, all other letters lower-cased. */
  function CaseWords(s: string, upper: bool): (r: string)
    ensures |r| == |s|
  {
    if |s| == 0 then ""
    else [CaseChar(upper, s[0])] + CaseWords(s[1..], s[0] == '-')
  }

  /**
   * The key `Header.Set` stores under (`textproto.CanonicalMIMEHeaderKey`): a key holding any
   * byte outside the token set is kept as it is; otherwise it is re-cased word by word.
   */
  function Canonical(key: string): (r: string)
    ensures |r| == |key|
    ensures (exists i :: 0 <= i < |key| && !IsTokenChar(key[i])) ==> r == key
  {
    if forall i :: 0 <= i < |key| ==> IsTokenChar(key[i]) then CaseWords(key, true) else key
  }

  /** No other stored key lands on the same canonical key as `key`. */
  ghost predicate Unambiguous(stored: map<string, string>, key: string) {
    forall k :: k in stored && Canonical(k) == Canonical(key) ==> k == key
  }

  /**
   * The headers of an outbound request: `Content-Type: application/json` is set first, then
   * every stored header in some order, each replacing what sits under its canonical key. So
   * every header comes from a stored key with that canonical form, except a `Content-Type`
   * no stored key lands on, which keeps the default.
   */
  ghost predicate SetAfterDefault(stored: map<string, string>, h: map<string, string>) {
    && h.Keys == {ContentType} + (set k | k in stored :: Canonical(k))
    && (forall c :: c in h ==>
          (exists k :: k in stored && Canonical(k) == c && h[c] == stored[k])
          || (c == ContentType && h[c] == ApplicationJson && forall k :: k in stored ==> Canonical(k) != ContentType))
    && (forall k :: k in stored && Unambiguous(stored, k) ==> h[Canonical(k)] == stored[k])
    && ((forall k :: k in stored ==> Canonical(k) != ContentType) ==> h[ContentType] == ApplicationJson)
  }

  /**
   * When any stored key lands on `Content-Type`, the default is overwritten by the value of one
   * of those stored keys, whichever the map order sets last.
   */
  lemma StoredContentTypeReplacesDefault(stored: map<string, string>, h: map<string, string>)
    requires SetAfterDefault(stored, h)
    requires exists k :: k in stored && Canonical(k) == ContentType
    ensures ContentType in h
    ensures exists k :: k in stored && Canonical(k) == ContentType && h[ContentType] == stored[k]
  {
  }

  lemma ContentTypeIsToken()
    ensures forall i :: 0 <= i < |ContentType| ==> IsTokenChar(ContentType[i])
  {
    var s := "Content-Type";
    assert forall i :: 0 <= i < |s| ==> IsTokenChar(s[i]);
  }

  /** `s` already has the casing `CaseWords(s, upper)` gives it. */
  predicate IsCased(s: string, upper: bool) {
    && (|s| > 0 ==> s[0] == CaseChar(upper, s[0]))
    && forall i :: 1 <= i < |s| ==> s[i] == CaseChar(s[i - 1] == '-', s[i])
  }

  /** A key already cased word by word is its own re-casing. */
  lemma {:induction false} CasedIsFixed(s: string, upper: bool)
    requires IsCased(s, upper)
    ensures CaseWords(s, upper) == s
    decreases |s|
  {
    if |s| > 0 {
      var t := s[1..];
      forall i | 1 <= i < |t|
        ensures t[i] == CaseChar(t[i - 1] == '-', t[i])
      {
        assert t[i] == s[i + 1] && t[i - 1] == s[i];
      }
      if |t| > 0 {
        assert t[0] == s[1];
      }
      CasedIsFixed(t, s[0] == '-');
      assert s == [s[0]] + t;
    }
  }

  lemma ContentTypeIsCased()
    ensures CaseWords(ContentType, true) == ContentType
  {
    var s := "Content-Type";
    assert forall i :: 1 <= i < |s| ==> s[i] == CaseChar(s[i - 1] == '-', s[i]);
    CasedIsFixed(s, true);
  }

  /** `Content-Type` is already in canonical form, so a stored `Content-Type` lands on the default's key. */
  lemma ContentTypeIsCanonical()
    ensures Canonical(ContentType) == ContentType
  {
    ContentTypeIsToken();
    ContentTypeIsCased();
  }

  /** Re-casing a re-cased key changes nothing. */
  lemma {:induction false} CaseWordsIdempotent(s: string, upper: bool)
    ensures CaseWords(CaseWords(s, upper), upper) == CaseWords(s, upper)
    decreases |s|
  {
    if |s| > 0 {
      CaseWordsIdempotent(s[1..], s[0] == '-');
      var r := CaseWords(s, upper);
      assert r[0] == '-' <==> s[0] == '-';
      assert r[1..] == CaseWords(s[1..], s[0] == '-');
    }
  }

  /** Re-casing keeps every byte inside the token set. */
  lemma {:induction false} CaseWordsKeepsTokens(s: string, upper: bool)
    requires forall i :: 0 <= i < |s| ==> IsTokenChar(s[i])
    ensures forall i :: 0 <= i < |s| ==> IsTokenChar(CaseWords(s, upper)[i])
    decreases |s|
  {
    if |s| > 0 {
      CaseWordsKeepsTokens(s[1..], s[0] == '-');
      var r := CaseWords(s, upper);
      assert r[1..] == CaseWords(s[1..], s[0] == '-');
      forall i | 0 <= i < |s|
        ensures IsTokenChar(r[i])
      {
        if i > 0 {
          assert r[i] == r[1..][i - 1];
        }
      }
    }
  }

  /** Canonicalising a canonical key changes nothing, so `Set` under a canonical key is stable. */
  lemma CanonicalIdempotent(key: string)
    ensures Canonical(Canonical(key)) == Canonical(key)
  {
    if forall i :: 0 <= i < |key| ==> IsTokenChar(key[i]) {
      CaseWordsKeepsTokens(key, true);
      CaseWordsIdempotent(key, true);
    }
  }
}
