/**
 * Translation lookup: a dot-separated key walks the nested dictionary one
 * word at a time and gives up with a fixed sentinel string at the first word
 * whose entry is missing or falsy.
 */
module Translation {
  import opened Values
  import opened Paths

  /** What `translate` answers for a key it cannot resolve. */
  const NotFound: string := "Error! Translation not found."

  /** The lookup `translate` performs for the words of a key. */
  function TranslatePath(d: Value, words: seq<string>): Result<Value>
    decreases |words|
  {
    if words == [] then Ok(d)
    else
      match Get(d, words[0])
      case Err(e) => Err(e)
      case Ok(entry) =>
        if !Truthy(entry) then Ok(Str(NotFound)) else TranslatePath(entry, words[1..])
  }

  /** Every non-empty prefix of `words` leads to a truthy entry. */
  predicate PathTruthy(d: Value, words: seq<string>) {
    forall j :: 1 <= j <= |words| ==>
      FetchPath(d, words[..j]).Ok? && Truthy(FetchPath(d, words[..j]).value)
  }

  /** Prefixes of `words` are one step down from prefixes of `words[1..]`. */
  lemma PrefixStep(d: Value, words: seq<string>, entry: Value, j: nat)
    requires 1 <= j <= |words| && Get(d, words[0]) == Ok(entry)
    ensures FetchPath(d, words[..j]) == FetchPath(entry, words[1..][..j - 1])
  {
    assert words[..j][1..] == words[1..][..j - 1];
  }

  /** When every word is present and truthy, `translate` returns the entry the
      whole key leads to. */
  lemma {:induction false} TranslateFound(d: Value, words: seq<string>)
    requires PathTruthy(d, words)
    ensures TranslatePath(d, words) == FetchPath(d, words)
    ensures words != [] ==> TranslatePath(d, words).Ok? && Truthy(TranslatePath(d, words).value)
    decreases |words|
  {
    if words != [] {
      assert FetchPath(d, words[..1]).Ok?;
      assert words[..1][0] == words[0] && words[..1][1..] == [];
      var entry := Get(d, words[0]).value;
      forall j | 1 <= j <= |words[1..]|
        ensures FetchPath(entry, words[1..][..j]).Ok? && Truthy(FetchPath(entry, words[1..][..j]).value)
      {
        PrefixStep(d, words, entry, j + 1);
      }
      TranslateFound(entry, words[1..]);
      assert words[..|words|] == words;
      PrefixStep(d, words, entry, |words|);
      assert words[1..][..|words| - 1] == words[1..];
    }
  }

  /** When some word is missing or falsy (and the dictionary itself is not
      undefined/null), `translate` returns the sentinel and does not throw. */
  lemma {:induction false} TranslateNotFound(d: Value, words: seq<string>)
    requires !Nullish(d) && !PathTruthy(d, words)
    ensures TranslatePath(d, words) == Ok(Str(NotFound))
    decreases |words|
  {
    var entry := Get(d, words[0]).value;
    if Truthy(entry) {
      if PathTruthy(entry, words[1..]) {
        forall j | 1 <= j <= |words|
          ensures FetchPath(d, words[..j]).Ok? && Truthy(FetchPath(d, words[..j]).value)
        {
          PrefixStep(d, words, entry, j);
        }
        assert false;
      }
      TranslateNotFound(entry, words[1..]);
    }
  }

  /** `translate` throws only when the dictionary itself is undefined/null;
      every later cursor passed a truthiness test. */
  lemma {:induction false} TranslateThrowsIff(d: Value, words: seq<string>)
    ensures TranslatePath(d, words).Err? <==> Nullish(d) && words != []
    decreases |words|
  {
    if words != [] && !Nullish(d) {
      var entry := Get(d, words[0]).value;
      if Truthy(entry) {
        TranslateThrowsIff(entry, words[1..]);
      }
    }
  }

  /** The lookup stops at the first missing word: whatever follows it in the
      key is never consulted. */
  lemma TranslateStopsAtFirstMissing(d: Value, words: seq<string>, rest: seq<string>)
    requires !Nullish(d) && !PathTruthy(d, words)
    ensures TranslatePath(d, words + rest) == TranslatePath(d, words) == Ok(Str(NotFound))
  {
    var j :| 1 <= j <= |words| && !(FetchPath(d, words[..j]).Ok? && Truthy(FetchPath(d, words[..j]).value));
    assert (words + rest)[..j] == words[..j];
    TranslateNotFound(d, words);
    TranslateNotFound(d, words + rest);
  }
}
