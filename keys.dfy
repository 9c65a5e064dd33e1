/** Cache keys. Each logical request owns a live key and, derived from it by
    a suffix, a stale key (views.py builds both with string concatenation). */
module Keys {
  import opened Text

  const SymbolPrefix := "crypto_"
  const ListKey := "crypto_list"
  const StaleSuffix := "_stale"

  /** A logical read: the 24-hour stats of one symbol, or the top list. */
  datatype Request = Symbol(name: string) | TopList

  /** The symbol a request names, in the upper-case form the detail view passes on. */
  predicate Normalized(q: Request) {
    q.Symbol? ==> NoLower(q.name)
  }

  function LiveKey(q: Request): string {
    match q
    case Symbol(s) => SymbolPrefix + s
    case TopList => ListKey
  }

  function StaleKey(key: string): string {
    key + StaleSuffix
  }

  /** A live key of a normalized request never ends in "_stale": its last
      character is the last character of an upper-case symbol, the '_' of the
      prefix, or the 't' of "crypto_list". */
  lemma LiveKeyNeverStale(q: Request)
    requires Normalized(q)
    ensures !EndsWith(LiveKey(q), StaleSuffix)
  {
    var k := LiveKey(q);
    match q
    case TopList =>
      assert k[|k| - 1] == 't';
    case Symbol(s) =>
      if s == [] {
        assert k[|k| - 1] == '_';
      } else {
        assert k[|k| - 1] == s[|s| - 1];
      }
    assert k[|k| - 1] != StaleSuffix[|StaleSuffix| - 1];
  }

  /** Among normalized requests the keys are pairwise distinct: no live key is
      any request's stale key, and live (and stale) keys coincide only for the
      same request. */
  lemma KeysDistinct(p: Request, q: Request)
    requires Normalized(p) && Normalized(q)
    ensures LiveKey(p) != StaleKey(LiveKey(q))
    ensures LiveKey(p) == LiveKey(q) <==> p == q
    ensures StaleKey(LiveKey(p)) == StaleKey(LiveKey(q)) <==> p == q
  {
    LiveKeyNeverStale(p);
    var sq := StaleKey(LiveKey(q));
    assert sq[|sq| - |StaleSuffix|..] == StaleSuffix;
    LiveKeyInjective(p, q);
    var sp := StaleKey(LiveKey(p));
    if sp == sq {
      assert LiveKey(p) == sp[..|sp| - |StaleSuffix|];
      assert LiveKey(q) == sq[..|sq| - |StaleSuffix|];
    }
  }

  lemma LiveKeyInjective(p: Request, q: Request)
    requires Normalized(p) && Normalized(q)
    ensures LiveKey(p) == LiveKey(q) <==> p == q
  {
    match (p, q)
    case (Symbol(a), Symbol(b)) =>
      if LiveKey(p) == LiveKey(q) {
        assert a == LiveKey(p)[|SymbolPrefix|..];
        assert b == LiveKey(q)[|SymbolPrefix|..];
      }
    case (Symbol(a), TopList) =>
      SymbolKeyIsNotListKey(a);
    case (TopList, Symbol(b)) =>
      SymbolKeyIsNotListKey(b);
    case (TopList, TopList) =>
  }

  /** An upper-case symbol's key differs from "crypto_list" in length, or at
      the first character after the prefix. */
  lemma SymbolKeyIsNotListKey(s: string)
    requires NoLower(s)
    ensures SymbolPrefix + s != ListKey
  {
    if |s| == |ListKey| - |SymbolPrefix| {
      assert (SymbolPrefix + s)[|SymbolPrefix|] == s[0];
      assert ListKey[|SymbolPrefix|] == 'l';
    }
  }

  /** The detail view upper-cases the symbol before deriving the key, so two
      symbols share a key exactly when they agree letter by letter up to case. */
  lemma SameKeyIgnoringCase(a: string, b: string)
    ensures LiveKey(Symbol(Upper(a))) == LiveKey(Symbol(Upper(b))) <==> AgreeUpToCase(a, b)
  {
    var ka, kb := LiveKey(Symbol(Upper(a))), LiveKey(Symbol(Upper(b)));
    if ka == kb {
      assert Upper(a) == ka[|SymbolPrefix|..];
      assert Upper(b) == kb[|SymbolPrefix|..];
    }
    if AgreeUpToCase(a, b) {
      assert forall i :: 0 <= i < |a| ==> Upper(a)[i] == Upper(b)[i];
      assert Upper(a) == Upper(b);
    }
  }

  predicate AgreeUpToCase(a: string, b: string) {
    |a| == |b| && forall i :: 0 <= i < |a| ==> UpperChar(a[i]) == UpperChar(b[i])
  }
}
