/**
 * Document identifiers of the document store (bson ObjectId): twelve bytes,
 * handled here as their 24 hexadecimal digits, most significant first.
 * A string names an id when it is exactly 24 hexadecimal digits of either
 * case; the string form of an id is its 24 digits in lower case. Ids are
 * ordered as their bytes are, which is the order of these digit sequences.
 */
module ObjectIds {
  import opened Wrappers

  type Nibble = x: int | 0 <= x < 16

  type ObjectId = s: seq<Nibble> | |s| == 24 witness seq(24, _ => 0)

  predicate IsHexDigit(c: char) {
    '0' <= c <= '9' || 'a' <= c <= 'f' || 'A' <= c <= 'F'
  }

  function DigitValue(c: char): Nibble
    requires IsHexDigit(c)
  {
    if c <= '9' then c as int - '0' as int
    else if c >= 'a' then c as int - 'a' as int + 10
    else c as int - 'A' as int + 10
  }

  /** The lower-case hexadecimal digit for a nibble. */
  function DigitChar(n: Nibble): (c: char)
    ensures IsHexDigit(c) && !('A' <= c <= 'F') && DigitValue(c) == n
  {
    if n < 10 then ('0' as int + n) as char else ('a' as int + n - 10) as char
  }

  /** The character with an upper-case hexadecimal letter put in lower case. */
  function LowerHex(c: char): char {
    if 'A' <= c <= 'F' then (c as int - 'A' as int + 'a' as int) as char else c
  }

  /** The strings that name a document id. */
  predicate IsValid(s: string) {
    |s| == 24 && forall i :: 0 <= i < |s| ==> IsHexDigit(s[i])
  }

  /** The id a string names, if it names one. */
  function Parse(s: string): (r: Option<ObjectId>)
    ensures r.Some? <==> IsValid(s)
    ensures r.Some? ==> Format(r.value) == seq(|s|, i requires 0 <= i < |s| => LowerHex(s[i]))
  {
    if IsValid(s) then Some(seq(24, i requires 0 <= i < 24 => DigitValue(s[i]))) else None
  }

  /** `str(oid)`: the 24 lower-case hexadecimal digits of an id. */
  function Format(id: ObjectId): (s: string)
    ensures IsValid(s)
    ensures forall i :: 0 <= i < |s| ==> !('A' <= s[i] <= 'F')
  {
    seq(24, i requires 0 <= i < 24 => DigitChar(id[i]))
  }

  /** Parsing the string form of an id gives the id back. */
  lemma ParseFormat(id: ObjectId)
    ensures Parse(Format(id)) == Some(id)
  {
    var s := Format(id);
    assert IsValid(s);
    assert seq(24, i requires 0 <= i < 24 => DigitValue(s[i])) == id;
  }

  /** Distinct ids have distinct string forms. */
  lemma FormatInjective(a: ObjectId, b: ObjectId)
    requires Format(a) == Format(b)
    ensures a == b
  {
    ParseFormat(a);
    ParseFormat(b);
  }

  /** Lexicographic order on digit sequences of one length: the order of the ids' bytes. */
  predicate LexLess(a: seq<Nibble>, b: seq<Nibble>)
    requires |a| == |b|
    decreases |a|
  {
    |a| > 0 && (a[0] < b[0] || (a[0] == b[0] && LexLess(a[1..], b[1..])))
  }

  lemma {:induction false} LexAsymmetric(a: seq<Nibble>, b: seq<Nibble>)
    requires |a| == |b| && LexLess(a, b)
    ensures !LexLess(b, a)
    decreases |a|
  {
    if a[0] == b[0] {
      LexAsymmetric(a[1..], b[1..]);
    }
  }

  lemma {:induction false} LexTransitive(a: seq<Nibble>, b: seq<Nibble>, c: seq<Nibble>)
    requires |a| == |b| == |c| && LexLess(a, b) && LexLess(b, c)
    ensures LexLess(a, c)
    decreases |a|
  {
    if a[0] == b[0] == c[0] {
      LexTransitive(a[1..], b[1..], c[1..]);
    }
  }

  lemma {:induction false} LexTotal(a: seq<Nibble>, b: seq<Nibble>)
    requires |a| == |b| && a != b
    ensures LexLess(a, b) || LexLess(b, a)
    decreases |a|
  {
    if a[0] == b[0] {
      assert a == [a[0]] + a[1..] && b == [b[0]] + b[1..];
      LexTotal(a[1..], b[1..]);
    }
  }

  /** `m` is the newest (greatest) id of `ids`. */
  predicate IsNewest(m: ObjectId, ids: set<ObjectId>) {
    m in ids && forall x :: x in ids && x != m ==> LexLess(x, m)
  }

  /** Every non-empty set of ids has a newest one. */
  lemma {:induction false} NewestExists(ids: set<ObjectId>)
    requires ids != {}
    ensures exists m :: IsNewest(m, ids)
    decreases |ids|
  {
    var x :| x in ids;
    if ids == {x} {
      assert IsNewest(x, ids);
    } else {
      NewestExists(ids - {x});
      var m: ObjectId :| IsNewest(m, ids - {x});
      LexTotal(x, m);
      if LexLess(x, m) {
        assert IsNewest(m, ids);
      } else {
        forall y | y in ids && y != x ensures LexLess(y, x) {
          if y != m {
            LexTransitive(y, m, x);
          }
        }
        assert IsNewest(x, ids);
      }
    }
  }

  /** A set has at most one newest id. */
  lemma NewestUnique(a: ObjectId, b: ObjectId, ids: set<ObjectId>)
    requires IsNewest(a, ids) && IsNewest(b, ids)
    ensures a == b
  {
    if a != b {
      LexAsymmetric(a, b);
    }
  }

  /** The ids of a set, newest first: the store's `sort([("_id", -1)])`. */
  ghost function NewestFirst(ids: set<ObjectId>): (r: seq<ObjectId>)
    decreases |ids|
  {
    if ids == {} then []
    else
      NewestExists(ids);
      var m: ObjectId :| IsNewest(m, ids);
      [m] + NewestFirst(ids - {m})
  }

  /** The newest-first listing holds every id of the set once and nothing else. */
  lemma {:induction false} NewestFirstContents(ids: set<ObjectId>)
    ensures |NewestFirst(ids)| == |ids|
    ensures forall i :: 0 <= i < |NewestFirst(ids)| ==> NewestFirst(ids)[i] in ids
    ensures forall x :: x in ids ==> x in NewestFirst(ids)
    decreases |ids|
  {
    if ids != {} {
      NewestExists(ids);
      var m: ObjectId :| IsNewest(m, ids);
      NewestFirstStep(ids, m);
      NewestFirstContents(ids - {m});
      var rest := NewestFirst(ids - {m});
      var s := NewestFirst(ids);
      assert s == [m] + rest;
      forall i | 0 <= i < |s|
        ensures s[i] in ids
      {
        if i > 0 {
          assert s[i] == rest[i - 1];
        }
      }
      forall x | x in ids
        ensures x in s
      {
        if x != m {
          assert x in rest;
        }
      }
    }
  }

  /** The newest-first listing is in strictly decreasing order. */
  lemma {:induction false} NewestFirstSorted(ids: set<ObjectId>)
    ensures forall i, j :: 0 <= i < j < |NewestFirst(ids)| ==> LexLess(NewestFirst(ids)[j], NewestFirst(ids)[i])
    decreases |ids|
  {
    if ids != {} {
      NewestExists(ids);
      var m: ObjectId :| IsNewest(m, ids);
      NewestFirstStep(ids, m);
      NewestFirstSorted(ids - {m});
      NewestFirstContents(ids - {m});
      var rest := NewestFirst(ids - {m});
      var s := NewestFirst(ids);
      assert s == [m] + rest;
      forall i, j | 0 <= i < j < |s|
        ensures LexLess(s[j], s[i])
      {
        assert s[j] == rest[j - 1] && s[j] in ids - {m};
        if i > 0 {
          assert s[i] == rest[i - 1];
        }
      }
    }
  }

  /** Taking any newest id first agrees with the listing. */
  lemma NewestFirstStep(ids: set<ObjectId>, m: ObjectId)
    requires IsNewest(m, ids)
    ensures NewestFirst(ids) == [m] + NewestFirst(ids - {m})
  {
    NewestExists(ids);
    var m': ObjectId :| IsNewest(m', ids) && NewestFirst(ids) == [m'] + NewestFirst(ids - {m'});
    NewestUnique(m, m', ids);
  }

  /** Newest-first listings have no repeated id. */
  lemma NewestFirstDistinct(ids: set<ObjectId>)
    ensures forall i, j :: 0 <= i < j < |NewestFirst(ids)| ==> NewestFirst(ids)[i] != NewestFirst(ids)[j]
  {
    NewestFirstSorted(ids);
    var s := NewestFirst(ids);
    forall i, j | 0 <= i < j < |s| ensures s[i] != s[j] {
      if s[i] == s[j] {
        LexAsymmetric(s[j], s[i]);
      }
    }
  }
}
