/**
 * The key helpers shared by both controllers: they turn an arbitrary string, or a
 * tuple, into a string usable as an ArangoDB `_key` by dropping every character
 * that is neither alphanumeric nor in the allow-list.
 */
module KeyHelpers {
  import opened PyValues

  /** The punctuation allowed in a `_key` besides letters and digits. */
  const ValidKeyChars: set<char> :=
    {'_', '-', ':', '.', '@', '(', ')', '+', ',', '=', ';', '$', '!', '*', '\'', '%'}

  /** `c.isalnum()`, restricted to ASCII letters and digits. */
  predicate IsAlnum(c: char) {
    'a' <= c <= 'z' || 'A' <= c <= 'Z' || '0' <= c <= '9'
  }

  /** A character the string helper keeps. */
  predicate IsKeyChar(c: char) {
    IsAlnum(c) || c in ValidKeyChars
  }

  predicate AllKeyChars(s: string) {
    forall k :: 0 <= k < |s| ==> IsKeyChar(s[k])
  }

  /** The characters of s that are key characters, in their original order. */
  function KeyFilter(s: string): (r: string)
    ensures AllKeyChars(r)
    ensures |r| <= |s|
    decreases |s|
  {
    if s == [] then []
    else (if IsKeyChar(s[0]) then [s[0]] else []) + KeyFilter(s[1..])
  }

  /** Filtering distributes over concatenation. */
  lemma {:induction false} KeyFilterConcat(a: string, b: string)
    ensures KeyFilter(a + b) == KeyFilter(a) + KeyFilter(b)
    decreases |a|
  {
    if a != [] {
      assert (a + b)[1..] == a[1..] + b;
      KeyFilterConcat(a[1..], b);
    } else {
      assert a + b == b;
    }
  }

  /** Every key character of s is kept as often as it occurs; every other
      character is dropped. */
  lemma {:induction false} KeyFilterCounts(s: string, c: char)
    ensures multiset(KeyFilter(s))[c] == if IsKeyChar(c) then multiset(s)[c] else 0
    decreases |s|
  {
    if s != [] {
      KeyFilterCounts(s[1..], c);
      assert s == [s[0]] + s[1..];
      assert multiset(s) == multiset{s[0]} + multiset(s[1..]);
    }
  }

  /** `sub` is obtained from s by deleting characters. */
  predicate IsSubsequence(sub: string, s: string)
    decreases |s|
  {
    if sub == [] then true
    else if s == [] then false
    else if sub[0] == s[0] then IsSubsequence(sub[1..], s[1..])
    else IsSubsequence(sub, s[1..])
  }

  lemma {:induction false} SubsequenceOfTail(sub: string, s: string)
    requires s != [] && IsSubsequence(sub, s[1..])
    ensures IsSubsequence(sub, s)
    decreases |s| + |sub|
  {
    if sub != [] && sub[0] == s[0] {
      // sub[1..] is a subsequence of s[1..] because sub is
      SubsequenceDropFirst(sub, s[1..]);
    }
  }

  lemma {:induction false} SubsequenceDropFirst(sub: string, s: string)
    requires sub != [] && IsSubsequence(sub, s)
    ensures IsSubsequence(sub[1..], s)
    decreases |s| + |sub|
  {
    if sub[0] == s[0] {
      if sub[1..] != [] {
        SubsequenceOfTail(sub[1..], s);
      }
    } else {
      SubsequenceDropFirst(sub, s[1..]);
      if sub[1..] != [] {
        SubsequenceOfTail(sub[1..], s);
      }
    }
  }

  /** The filtered string is a subsequence of the input: its characters come
      from the input, in the input's order. */
  lemma {:induction false} KeyFilterIsSubsequence(s: string)
    ensures IsSubsequence(KeyFilter(s), s)
    decreases |s|
  {
    if s != [] {
      KeyFilterIsSubsequence(s[1..]);
      if !IsKeyChar(s[0]) {
        assert KeyFilter(s) == KeyFilter(s[1..]);
        if KeyFilter(s) != [] {
          SubsequenceOfTail(KeyFilter(s), s);
        }
      }
    }
  }

  /** The filter leaves a string alone exactly when it consists of key
      characters only. */
  lemma {:induction false} KeyFilterFixpoint(s: string)
    ensures KeyFilter(s) == s <==> AllKeyChars(s)
    decreases |s|
  {
    if s != [] {
      KeyFilterFixpoint(s[1..]);
      if AllKeyChars(s) {
        assert AllKeyChars(s[1..]);
      }
    }
  }

  /** Filtering twice is filtering once. */
  lemma KeyFilterIdempotent(s: string)
    ensures KeyFilter(KeyFilter(s)) == KeyFilter(s)
  {
    KeyFilterFixpoint(KeyFilter(s));
  }

  /** `_string_to_arangodb_key_helper`: scan the string and accumulate every
      alphanumeric or allow-listed character. */
  method StringToArangodbKey(s: string) returns (res: string)
    ensures res == KeyFilter(s)
    ensures AllKeyChars(res) && '/' !in res && ' ' !in res
  {
    res := "";
    for i := 0 to |s|
      invariant res == KeyFilter(s[..i])
    {
      KeyFilterConcat(s[..i], [s[i]]);
      assert s[..i + 1] == s[..i] + [s[i]];
      if IsKeyChar(s[i]) {
        res := res + [s[i]];
      }
    }
    assert s[..|s|] == s;
  }

  /** `map(str, tup)`. */
  function StrAll(t: seq<PyValue>): (r: seq<string>)
    ensures |r| == |t|
    ensures forall k :: 0 <= k < |t| ==> r[k] == Str(t[k])
  {
    seq(|t|, k requires 0 <= k < |t| => Str(t[k]))
  }

  /** `_tuple_to_arangodb_key_helper`: join the `str` of every element and hand
      the result to the string helper. */
  method TupleToArangodbKey(t: seq<PyValue>) returns (res: string)
    ensures res == KeyFilter(Concat(StrAll(t)))
    ensures AllKeyChars(res) && '/' !in res && ' ' !in res
  {
    var joined := Concat(StrAll(t));
    res := StringToArangodbKey(joined);
  }

  /** The tuple key is the concatenation of the keys of its elements. */
  lemma {:induction false} TupleKeyPerElement(t: seq<PyValue>)
    ensures KeyFilter(Concat(StrAll(t))) == Concat(seq(|t|, k requires 0 <= k < |t| => KeyFilter(Str(t[k]))))
    decreases |t|
  {
    var keys := seq(|t|, k requires 0 <= k < |t| => KeyFilter(Str(t[k])));
    if t != [] {
      TupleKeyPerElement(t[1..]);
      assert StrAll(t)[1..] == StrAll(t[1..]);
      assert keys[1..] == seq(|t[1..]|, k requires 0 <= k < |t[1..]| => KeyFilter(Str(t[1..][k])));
      KeyFilterConcat(Str(t[0]), Concat(StrAll(t[1..])));
    }
  }

  /** `str` of an int is already a valid key (digits and "-"). */
  lemma IntStrIsKey(i: int)
    ensures KeyFilter(IntToStr(i)) == IntToStr(i)
  {
    var s := IntToStr(i);
    assert '-' in ValidKeyChars;
    assert AllKeyChars(s);
    KeyFilterFixpoint(s);
  }

  /** A tuple of two ints (a grid coordinate) keys to their decimal forms side by
      side. */
  lemma PairKey(a: int, b: int)
    ensures KeyFilter(Concat(StrAll([PyInt(a), PyInt(b)]))) == IntToStr(a) + IntToStr(b)
  {
    var t := [PyInt(a), PyInt(b)];
    assert StrAll(t) == [IntToStr(a), IntToStr(b)];
    assert Concat(StrAll(t)) == IntToStr(a) + IntToStr(b);
    KeyFilterConcat(IntToStr(a), IntToStr(b));
    IntStrIsKey(a);
    IntStrIsKey(b);
  }
}
