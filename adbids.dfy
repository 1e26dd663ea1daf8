/**
 * ArangoDB document ids "collection/key" and Python's `str.split(sep)` on a
 * one-character separator, which the controllers use to take ids apart.
 */
module AdbIds {
  import opened PyValues

  /** `s.split(sep)` for a one-character separator: the maximal pieces of s that
      do not contain sep, in order. */
  function Split(s: string, sep: char): (parts: seq<string>)
    ensures |parts| >= 1
    ensures forall k :: 0 <= k < |parts| ==> sep !in parts[k]
    ensures Join([sep], parts) == s
    decreases |s|
  {
    if s == [] then [""]
    else
      var rest := Split(s[1..], sep);
      if s[0] == sep then [""] + rest
      else
        assert Join([sep], rest) == rest[0] + (if |rest| == 1 then "" else [sep] + Join([sep], rest[1..]));
        [[s[0]] + rest[0]] + rest[1..]
  }

  /** The first piece is the longest prefix of s that does not contain sep. */
  lemma {:induction false} SplitFirst(s: string, sep: char)
    ensures Split(s, sep)[0] <= s
    ensures |Split(s, sep)[0]| < |s| ==> s[|Split(s, sep)[0]|] == sep
    decreases |s|
  {
    if s != [] && s[0] != sep {
      SplitFirst(s[1..], sep);
    }
  }

  /** There is more than one piece exactly when the separator occurs. */
  lemma {:induction false} SplitMany(s: string, sep: char)
    ensures sep in s <==> |Split(s, sep)| > 1
    decreases |s|
  {
    if s != [] {
      SplitMany(s[1..], sep);
      assert s == [s[0]] + s[1..];
    }
  }

  /** A string without the separator splits into itself alone. */
  lemma {:induction false} SplitNoSeparator(s: string, sep: char)
    requires sep !in s
    ensures Split(s, sep) == [s]
    decreases |s|
  {
    if s != [] {
      SplitNoSeparator(s[1..], sep);
      assert [s[0]] + s[1..] == s;
    }
  }

  /** Splitting `a + sep + b`, where a has no separator, yields a followed by the
      pieces of b. */
  lemma {:induction false} SplitAround(a: string, b: string, sep: char)
    requires sep !in a
    ensures Split(a + [sep] + b, sep) == [a] + Split(b, sep)
    decreases |a|
  {
    if a == [] {
      assert a + [sep] + b == [sep] + b;
      assert ([sep] + b)[1..] == b;
    } else {
      SplitAround(a[1..], b, sep);
      assert (a + [sep] + b)[1..] == a[1..] + [sep] + b;
      assert [a[0]] + a[1..] == a;
    }
  }

  /** Joining pieces that do not contain the separator and splitting again gives
      the pieces back. */
  lemma {:induction false} SplitJoin(parts: seq<string>, sep: char)
    requires |parts| >= 1
    requires forall k :: 0 <= k < |parts| ==> sep !in parts[k]
    ensures Split(Join([sep], parts), sep) == parts
    decreases |parts|
  {
    if |parts| == 1 {
      SplitNoSeparator(parts[0], sep);
    } else {
      SplitJoin(parts[1..], sep);
      SplitAround(parts[0], Join([sep], parts[1..]), sep);
      assert [parts[0]] + parts[1..] == parts;
    }
  }

  /** The document id `col + "/" + key`. */
  function MakeId(col: string, key: string): string {
    col + "/" + key
  }

  /** `id.split("/")[0]`: the part of an id before its first "/", or the whole
      string when it has none. */
  function CollectionOf(id: string): (col: string)
    ensures '/' !in col
    ensures col <= id
    ensures |col| < |id| ==> id[|col|] == '/'
    ensures '/' !in id ==> col == id
  {
    SplitFirst(id, '/');
    Split(id, '/')[0]
  }

  /** `id.split("/")[1]`: the part between the first and the second "/", and
      an IndexError when the id has no "/" at all. */
  function KeyOf(id: string): (r: Result<string>)
    ensures r.Err? <==> '/' !in id
    ensures r.Err? ==> r.error == IndexError
    ensures r.Ok? ==> '/' !in r.value
  {
    var parts := Split(id, '/');
    SplitMany(id, '/');
    if |parts| > 1 then Ok(parts[1]) else Err(IndexError)
  }

  /** An id built from a collection and a key, neither containing "/", splits
      back into exactly that collection and that key. */
  lemma IdRoundTrip(col: string, key: string)
    requires '/' !in col && '/' !in key
    ensures Split(MakeId(col, key), '/') == [col, key]
    ensures CollectionOf(MakeId(col, key)) == col && KeyOf(MakeId(col, key)) == Ok(key)
  {
    SplitAround(col, key, '/');
    SplitNoSeparator(key, '/');
  }
}
