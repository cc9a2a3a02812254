/**
 * Dot-separated paths: `String.prototype.split` on one separator character,
 * and the two walks `set` and `fetch` of the state container perform over
 * such a path.
 */
module Paths {
  import opened Values

  /** `s.split(sep)` in JavaScript: every separator starts a new part, so
      the empty string gives one empty part. */
  function Split(s: string, sep: char): (parts: seq<string>)
    ensures |parts| >= 1
    ensures forall i :: 0 <= i < |parts| ==> sep !in parts[i]
    decreases |s|
  {
    if s == [] then [""]
    else
      var rest := Split(s[1..], sep);
      if s[0] == sep then [""] + rest
      else [[s[0]] + rest[0]] + rest[1..]
  }

  /** `parts.join(sep)`: the inverse of `Split`. */
  function Join(parts: seq<string>, sep: char): string
    requires |parts| >= 1
    decreases |parts|
  {
    if |parts| == 1 then parts[0] else parts[0] + [sep] + Join(parts[1..], sep)
  }

  /** Joining the parts of a split gives back the string. */
  lemma {:induction false} JoinSplit(s: string, sep: char)
    ensures Join(Split(s, sep), sep) == s
    decreases |s|
  {
    if s != [] {
      var rest := Split(s[1..], sep);
      JoinSplit(s[1..], sep);
      if s[0] != sep && |rest| > 1 {
        assert Join(rest, sep) == rest[0] + [sep] + Join(rest[1..], sep);
      }
    }
  }

  /** A leading run without separators is glued onto the first part. */
  lemma {:induction false} SplitPrefix(w: string, t: string, sep: char)
    requires sep !in w
    ensures Split(w + t, sep) == [w + Split(t, sep)[0]] + Split(t, sep)[1..]
    decreases |w|
  {
    if w == [] {
      var parts := Split(t, sep);
      assert w + t == t && w + parts[0] == parts[0];
      assert [parts[0]] + parts[1..] == parts;
    } else {
      assert (w + t)[1..] == w[1..] + t;
      SplitPrefix(w[1..], t, sep);
      assert [w[0]] + (w[1..] + Split(t, sep)[0]) == w + Split(t, sep)[0];
    }
  }

  /** Splitting a join of separator-free parts gives back the parts, so `Split`
      is a bijection onto non-empty sequences of separator-free parts. */
  lemma {:induction false} SplitJoin(parts: seq<string>, sep: char)
    requires |parts| >= 1
    requires forall i :: 0 <= i < |parts| ==> sep !in parts[i]
    ensures Split(Join(parts, sep), sep) == parts
    decreases |parts|
  {
    if |parts| == 1 {
      SplitPrefix(parts[0], "", sep);
      assert parts[0] + "" == parts[0];
    } else {
      var tail := Join(parts[1..], sep);
      SplitJoin(parts[1..], sep);
      assert ([sep] + tail)[1..] == tail;
      assert Split([sep] + tail, sep) == [""] + parts[1..];
      SplitPrefix(parts[0], [sep] + tail, sep);
      assert parts[0] + [sep] + tail == parts[0] + ([sep] + tail);
      assert parts[0] + "" == parts[0];
    }
  }

  /** The walk of `fetch`: read one property per segment; a read on
      undefined/null throws, a missing final property reads as undefined. */
  function FetchPath(v: Value, path: seq<string>): Result<Value>
    decreases |path|
  {
    if path == [] then Ok(v)
    else
      match Get(v, path[0])
      case Err(e) => Err(e)
      case Ok(child) => FetchPath(child, path[1..])
  }

  /** The walk of `set`: read every segment but the last, then assign the
      last property of the object reached. Only plain objects accept the
      write here; any other value, arrays and page components included,
      gives a TypeError. */
  function SetPath(v: Value, path: seq<string>, x: Value): Result<Value>
    requires |path| >= 1
    decreases |path|
  {
    if |path| == 1 then
      if v.Node? then Ok(Node(v.fields[path[0] := x])) else Err(TypeError)
    else
      match Get(v, path[0])
      case Err(e) => Err(e)
      case Ok(child) =>
        match SetPath(child, path[1..], x)
        case Err(e) => Err(e)
        case Ok(c) => if v.Node? then Ok(Node(v.fields[path[0] := c])) else Err(TypeError)
  }

  /** Every intermediate segment of `path` leads to an object. */
  predicate IntermediatesExist(v: Value, path: seq<string>)
    requires |path| >= 1
  {
    var parent := FetchPath(v, path[..|path| - 1]);
    parent.Ok? && parent.value.Node?
  }

  /** Reading a path is reading its parent, then one more property. */
  lemma {:induction false} FetchSnoc(v: Value, path: seq<string>, key: string)
    ensures FetchPath(v, path + [key]) ==
              match FetchPath(v, path)
              case Err(e) => Err(e)
              case Ok(parent) => Get(parent, key)
    decreases |path|
  {
    if path == [] {
      assert [] + [key] == [key];
    } else {
      assert (path + [key])[1..] == path[1..] + [key];
      match Get(v, path[0])
      case Err(_) =>
      case Ok(child) => FetchSnoc(child, path[1..], key);
    }
  }

  /** `fetch` yields undefined for a missing final segment under an object. */
  lemma MissingFinalIsUndefined(v: Value, path: seq<string>, key: string)
    requires FetchPath(v, path).Ok? && FetchPath(v, path).value.Node?
    requires key !in FetchPath(v, path).value.fields
    ensures FetchPath(v, path + [key]) == Ok(Undefined)
  {
    FetchSnoc(v, path, key);
  }

  /** Reading `path + rest` is reading `path`, then reading `rest` from there;
      an error on the way propagates. */
  lemma {:induction false} FetchAppend(v: Value, path: seq<string>, rest: seq<string>)
    ensures FetchPath(v, path + rest) ==
              match FetchPath(v, path)
              case Err(e) => Err(e)
              case Ok(reached) => FetchPath(reached, rest)
    decreases |path|
  {
    if path == [] {
      assert [] + rest == rest;
    } else {
      assert (path + rest)[0] == path[0] && (path + rest)[1..] == path[1..] + rest;
      match Get(v, path[0])
      case Err(_) =>
      case Ok(child) => FetchAppend(child, path[1..], rest);
    }
  }

  /** `fetch` throws when an intermediate segment is missing: the next read
      acts on undefined. */
  lemma MissingIntermediateThrows(v: Value, path: seq<string>, key: string, rest: seq<string>)
    requires FetchPath(v, path).Ok? && FetchPath(v, path).value.Node?
    requires key !in FetchPath(v, path).value.fields
    requires |rest| >= 1
    ensures FetchPath(v, path + [key] + rest) == Err(TypeError)
  {
    MissingFinalIsUndefined(v, path, key);
    FetchAppend(v, path + [key], rest);
  }

  /** `set` succeeds exactly when every intermediate segment leads to an object. */
  lemma {:induction false} SetPathOkIff(v: Value, path: seq<string>, x: Value)
    requires |path| >= 1
    ensures SetPath(v, path, x).Ok? <==> IntermediatesExist(v, path)
    decreases |path|
  {
    if |path| > 1 {
      assert path[..|path| - 1][1..] == path[1..][..|path[1..]| - 1];
      match Get(v, path[0])
      case Err(_) =>
      case Ok(child) => SetPathOkIff(child, path[1..], x);
    }
  }

  /** A successful `set` only rebuilds the object it starts from: the first
      segment is the only own property that changes. */
  lemma SetPathRoot(v: Value, path: seq<string>, x: Value)
    requires |path| >= 1
    requires SetPath(v, path, x).Ok?
    ensures v.Node? && SetPath(v, path, x).value.Node?
    ensures SetPath(v, path, x).value.fields ==
              v.fields[path[0] := SetPath(v, path, x).value.fields[path[0]]]
  {
  }

  /** After a successful `set`, `fetch` of the same path yields the value written. */
  lemma {:induction false} SetThenFetch(v: Value, path: seq<string>, x: Value)
    requires |path| >= 1
    requires SetPath(v, path, x).Ok?
    ensures FetchPath(SetPath(v, path, x).value, path) == Ok(x)
    decreases |path|
  {
    if |path| > 1 {
      var child := Get(v, path[0]).value;
      SetThenFetch(child, path[1..], x);
    }
  }

  /** A successful `set` leaves every path alone that leaves the written path
      at some segment `j`: siblings of the final key and of every node on the
      way read as before. */
  lemma {:induction false} SetLeavesOtherPaths(v: Value, path: seq<string>, x: Value, other: seq<string>, j: nat)
    requires |path| >= 1 && SetPath(v, path, x).Ok?
    requires j < |path| && j < |other|
    requires other[..j] == path[..j] && other[j] != path[j]
    ensures FetchPath(SetPath(v, path, x).value, other) == FetchPath(v, other)
    decreases j
  {
    var w := SetPath(v, path, x).value;
    if j > 0 {
      var child := Get(v, path[0]).value;
      assert other[0] == other[..j][0] == path[..j][0] == path[0];
      assert other[1..][..j - 1] == other[..j][1..] == path[..j][1..] == path[1..][..j - 1];
      SetLeavesOtherPaths(child, path[1..], x, other[1..], j - 1);
    }
  }
}
