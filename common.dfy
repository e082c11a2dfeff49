/** Types shared by the front end and the back end of the farm-records application:
    optional values, ids, calendar days, request parameters and JSON scalars. */
module Common {

  datatype Option<+T> = None | Some(value: T)

  datatype Result<+T, +E> = Ok(value: T) | Err(error: E)

  /** Record ids as they are compared: the decimal text of the primary key. */
  type Id = string

  /** A calendar date as a day number; only its order matters to the application. */
  type Day = int

  /** A query-string parameter or a date input: its raw text, and the day it denotes
      when the text parses as a date. */
  datatype Param = Param(text: string, asDay: Option<Day>)

  /** Python's and JavaScript's truthiness of a string: only the empty string is false. */
  predicate Truthy(s: string) {
    s != ""
  }

  /** A JSON scalar as the browser receives it. `Undefined` is a missing key. */
  datatype Value = Undefined | Null | Scalar(raw: string)

  /** JavaScript's `v != null`, which is false for both `null` and `undefined`. */
  predicate NotNullish(v: Value) {
    v.Scalar?
  }

  /** A JSON object as the browser receives it, by key. */
  type JsonObject = map<string, Value>

  /** `obj.key`: the key's value, or `undefined` when the object has no such key. */
  function Lookup(obj: JsonObject, key: string): (v: Value)
    ensures key !in obj ==> v.Undefined?
    ensures key in obj ==> v == obj[key]
  {
    if key in obj then obj[key] else Undefined
  }

  /** The text a template literal `${v}` inserts. */
  function TemplateText(v: Value): (r: string)
    ensures v.Undefined? ==> r == "undefined"
    ensures v.Null? ==> r == "null"
    ensures v.Scalar? ==> r == v.raw
  {
    match v
    case Undefined => "undefined"
    case Null => "null"
    case Scalar(raw) => raw
  }

  /** The name the front end shows for a farmer: `${f.farmer_fname} ${f.farmer_lname}`. With
      both keys present it is the first name, a space and the last name; with both missing it
      is "undefined undefined". */
  function FarmerFullName(farmer: JsonObject): (r: string)
    ensures Lookup(farmer, "farmer_fname").Scalar? && Lookup(farmer, "farmer_lname").Scalar? ==>
      r == farmer["farmer_fname"].raw + " " + farmer["farmer_lname"].raw
    ensures "farmer_fname" !in farmer && "farmer_lname" !in farmer ==> r == "undefined undefined"
  {
    TemplateText(Lookup(farmer, "farmer_fname")) + " " + TemplateText(Lookup(farmer, "farmer_lname"))
  }

  /** Elements of `s` that satisfy `keep`, in their original order (JavaScript's `Array.filter`). */
  function Filter<T>(s: seq<T>, keep: T -> bool): (r: seq<T>)
    ensures |r| <= |s|
    ensures forall x :: x in r ==> x in s && keep(x)
    ensures forall x :: x in s && keep(x) ==> x in r
  {
    if s == [] then []
    else if keep(s[0]) then [s[0]] + Filter(s[1..], keep)
    else Filter(s[1..], keep)
  }

  /** Filtering keeps every copy of a kept element and no copy of a dropped one. */
  lemma {:induction false} FilterCounts<T>(s: seq<T>, keep: T -> bool)
    ensures forall x :: x in s ==> multiset(Filter(s, keep))[x] == if keep(x) then multiset(s)[x] else 0
  {
    if s != [] {
      FilterCounts(s[1..], keep);
      assert s == [s[0]] + s[1..];
      assert s[0] !in s[1..] ==> multiset(Filter(s[1..], keep))[s[0]] == 0;
    }
  }

  /** A condition every element meets keeps the whole sequence. */
  lemma {:induction false} FilterKeepsAll<T>(s: seq<T>, keep: T -> bool)
    requires forall x :: x in s ==> keep(x)
    ensures Filter(s, keep) == s
  {
    if s != [] {
      FilterKeepsAll(s[1..], keep);
      assert [s[0]] + s[1..] == s;
    }
  }

  /** A condition no element meets keeps nothing. */
  lemma {:induction false} FilterDropsAll<T>(s: seq<T>, keep: T -> bool)
    requires forall x :: x in s ==> !keep(x)
    ensures Filter(s, keep) == []
  {
    if s != [] {
      assert s[0] in s;
      FilterDropsAll(s[1..], keep);
    }
  }

  /** Filtering distributes over concatenation. */
  lemma {:induction false} FilterAppend<T>(s: seq<T>, t: seq<T>, keep: T -> bool)
    ensures Filter(s + t, keep) == Filter(s, keep) + Filter(t, keep)
  {
    if s == [] {
      assert s + t == t;
    } else {
      var u := s + t;
      assert u[0] == s[0] && u[1..] == s[1..] + t;
      FilterAppend(s[1..], t, keep);
      if keep(s[0]) {
        calc {
          Filter(u, keep);
          [s[0]] + Filter(s[1..] + t, keep);
          [s[0]] + (Filter(s[1..], keep) + Filter(t, keep));
          ([s[0]] + Filter(s[1..], keep)) + Filter(t, keep);
        }
      }
    }
  }

  /** `sub` is obtained from `s` by deleting elements, without reordering. */
  predicate IsSubsequence<T(==)>(sub: seq<T>, s: seq<T>)
    decreases |s|
  {
    if sub == [] then true
    else if s == [] then false
    else if sub[0] == s[0] then IsSubsequence(sub[1..], s[1..])
    else IsSubsequence(sub, s[1..])
  }

  lemma {:induction false} FilterIsSubsequence<T>(s: seq<T>, keep: T -> bool)
    ensures IsSubsequence(Filter(s, keep), s)
  {
    if s != [] {
      FilterIsSubsequence(s[1..], keep);
      if !keep(s[0]) {
        SubsequenceSkip(Filter(s[1..], keep), s[0], s[1..]);
      }
    }
  }

  /** Putting one more element in front of the source keeps a subsequence a subsequence. */
  lemma {:induction false} SubsequenceSkip<T>(sub: seq<T>, x: T, s: seq<T>)
    requires IsSubsequence(sub, s)
    ensures IsSubsequence(sub, [x] + s)
    decreases |s|, 1
  {
    assert ([x] + s)[1..] == s;
    if sub != [] && sub[0] == x {
      SubsequenceTail(sub, s);
    }
  }

  /** Dropping the first element of a subsequence keeps it a subsequence. */
  lemma {:induction false} SubsequenceTail<T>(sub: seq<T>, s: seq<T>)
    requires sub != [] && IsSubsequence(sub, s)
    ensures IsSubsequence(sub[1..], s)
    decreases |s|, 0
  {
    assert [s[0]] + s[1..] == s;
    if sub[0] == s[0] {
      SubsequenceSkip(sub[1..], s[0], s[1..]);
    } else {
      SubsequenceTail(sub, s[1..]);
      SubsequenceSkip(sub[1..], s[0], s[1..]);
    }
  }

  lemma {:induction false} SubsequenceRefl<T>(s: seq<T>)
    ensures IsSubsequence(s, s)
  {
    if s != [] {
      SubsequenceRefl(s[1..]);
    }
  }

  /** A query-set step `if apply: q = q.filter(keep)`: the elements of `q` that pass `keep`
      when the step applies, all of `q` otherwise, in their original order. */
  function Narrow<T>(q: seq<T>, apply: bool, keep: T -> bool): (r: seq<T>)
    ensures forall x :: x in r ==> x in q && (apply ==> keep(x))
    ensures forall x :: x in q && (apply ==> keep(x)) ==> x in r
    ensures IsSubsequence(r, q)
  {
    if apply then
      FilterIsSubsequence(q, keep);
      Filter(q, keep)
    else
      SubsequenceRefl(q);
      q
  }

  /** A query-set step keeps every copy of what it keeps. */
  lemma NarrowCounts<T>(q: seq<T>, apply: bool, keep: T -> bool)
    ensures forall x :: x in q ==> multiset(Narrow(q, apply, keep))[x] == if apply && !keep(x) then 0 else multiset(q)[x]
  {
    if apply {
      FilterCounts(q, keep);
    }
  }

  /** Subsequences of subsequences are subsequences. */
  lemma {:induction false} SubsequenceTrans<T>(a: seq<T>, b: seq<T>, c: seq<T>)
    requires IsSubsequence(a, b) && IsSubsequence(b, c)
    ensures IsSubsequence(a, c)
    decreases |c|
  {
    if a != [] {
      assert [c[0]] + c[1..] == c;
      if b[0] == c[0] && a[0] == b[0] {
        SubsequenceTrans(a[1..], b[1..], c[1..]);
      } else if b[0] == c[0] {
        SubsequenceTrans(a, b[1..], c[1..]);
        SubsequenceSkip(a, c[0], c[1..]);
      } else {
        SubsequenceTrans(a, b, c[1..]);
        SubsequenceSkip(a, c[0], c[1..]);
      }
    }
  }

  /** Python's `s.split(sep)`: the pieces between separators, empty pieces included. */
  function Split(s: string, sep: char): (r: seq<string>)
    ensures |r| >= 1
    ensures forall k :: 0 <= k < |r| ==> sep !in r[k]
  {
    if s == [] then [""]
    else if s[0] == sep then [""] + Split(s[1..], sep)
    else
      var rest := Split(s[1..], sep);
      [[s[0]] + rest[0]] + rest[1..]
  }

  /** Python's `sep.join(parts)`. */
  function Join(parts: seq<string>, sep: string): string {
    if parts == [] then ""
    else if |parts| == 1 then parts[0]
    else parts[0] + sep + Join(parts[1..], sep)
  }

  /** Splitting and joining back with the same separator gives the text back. */
  lemma {:induction false} JoinSplit(s: string, sep: char)
    ensures Join(Split(s, sep), [sep]) == s
  {
    if s != [] {
      JoinSplit(s[1..], sep);
      var rest := Split(s[1..], sep);
      if s[0] == sep {
        assert Split(s, sep)[1..] == rest;
        assert [s[0]] + s[1..] == s;
      } else {
        var r := Split(s, sep);
        assert r[0] == [s[0]] + rest[0] && r[1..] == rest[1..];
        if |rest| == 1 {
          assert Join(r, [sep]) == [s[0]] + rest[0];
        } else {
          assert Join(rest, [sep]) == rest[0] + [sep] + Join(rest[1..], [sep]);
        }
        assert [s[0]] + s[1..] == s;
      }
    }
  }

  /** A piece without the separator, followed by the separator, is split off whole. */
  lemma {:induction false} SplitAfterPiece(piece: string, sep: char, rest: string)
    requires sep !in piece
    ensures Split(piece + [sep] + rest, sep) == [piece] + Split(rest, sep)
  {
    if piece == [] {
      assert piece + [sep] + rest == [sep] + rest;
      assert ([sep] + rest)[1..] == rest;
    } else {
      assert (piece + [sep] + rest)[1..] == piece[1..] + [sep] + rest;
      assert sep !in piece[1..];
      SplitAfterPiece(piece[1..], sep, rest);
      assert [piece[0]] + piece[1..] == piece;
    }
  }

  /** Text without the separator splits into itself alone. */
  lemma {:induction false} SplitOfPiece(piece: string, sep: char)
    requires sep !in piece
    ensures Split(piece, sep) == [piece]
  {
    if piece != [] {
      assert sep !in piece[1..];
      SplitOfPiece(piece[1..], sep);
      assert [piece[0]] + piece[1..] == piece;
    }
  }

  /** Joining pieces without the separator and splitting again gives the pieces back. */
  lemma {:induction false} SplitJoin(parts: seq<string>, sep: char)
    requires |parts| >= 1
    requires forall k :: 0 <= k < |parts| ==> sep !in parts[k]
    ensures Split(Join(parts, [sep]), sep) == parts
  {
    if |parts| == 1 {
      SplitOfPiece(parts[0], sep);
    } else {
      SplitJoin(parts[1..], sep);
      SplitAfterPiece(parts[0], sep, Join(parts[1..], [sep]));
      assert [parts[0]] + parts[1..] == parts;
    }
  }

  /** Text joined at a separator splits into the pieces of each side. */
  lemma {:induction false} SplitAppend(a: string, sep: char, b: string)
    ensures Split(a + [sep] + b, sep) == Split(a, sep) + Split(b, sep)
  {
    if a == [] {
      assert a + [sep] + b == [sep] + b;
      assert ([sep] + b)[1..] == b;
    } else {
      assert (a + [sep] + b)[1..] == a[1..] + [sep] + b;
      assert (a + [sep] + b)[0] == a[0];
      SplitAppend(a[1..], sep, b);
    }
  }
}
