/** The string operations a query string is built from and read back with:
    `Array.prototype.join`, `String.prototype.split`, and cutting a `key=value`
    piece at its first `=`. */
module QueryText {

  /** `parts.join(sep)`. */
  function Join(parts: seq<string>, sep: char): string
  {
    if |parts| == 0 then ""
    else if |parts| == 1 then parts[0]
    else parts[0] + [sep] + Join(parts[1..], sep)
  }

  /** `s.split(sep)`: never empty, and `"".split(sep)` is `[""]`. */
  function Split(s: string, sep: char): (r: seq<string>)
    ensures |r| >= 1
  {
    if s == [] then [""]
    else if s[0] == sep then [""] + Split(s[1..], sep)
    else var t := Split(s[1..], sep); [[s[0]] + t[0]] + t[1..]
  }

  /** The text before the first `sep` and the text after it; all of `s` and `""` when there is none. */
  function Cut(s: string, sep: char): (string, string)
  {
    if s == [] then ("", "")
    else if s[0] == sep then ("", s[1..])
    else var (k, v) := Cut(s[1..], sep); ([s[0]] + k, v)
  }

  /** How many times `c` occurs in `s`. */
  function Count(s: string, c: char): nat
  {
    if s == [] then 0 else (if s[0] == c then 1 else 0) + Count(s[1..], c)
  }

  lemma {:induction false} SplitPrefix(x: string, rest: string, sep: char)
    requires sep !in x
    ensures Split(x + rest, sep) == [x + Split(rest, sep)[0]] + Split(rest, sep)[1..]
  {
    if x != [] {
      SplitPrefix(x[1..], rest, sep);
      var t := Split(rest, sep);
      var u := Split(x[1..] + rest, sep);
      assert (x + rest)[0] == x[0] && (x + rest)[1..] == x[1..] + rest;
      assert Split(x + rest, sep) == [[x[0]] + u[0]] + u[1..];
      assert u[0] == x[1..] + t[0] && u[1..] == t[1..];
      assert [x[0]] + (x[1..] + t[0]) == x + t[0];
    } else {
      var t := Split(rest, sep);
      assert x + rest == rest && x + t[0] == t[0];
      assert [t[0]] + t[1..] == t;
    }
  }

  /** Splitting a join gives the parts back when no part contains the separator. */
  lemma {:induction false} SplitJoin(parts: seq<string>, sep: char)
    requires |parts| >= 1
    requires forall p :: p in parts ==> sep !in p
    ensures Split(Join(parts, sep), sep) == parts
  {
    if |parts| == 1 {
      SplitPrefix(parts[0], "", sep);
      assert parts[0] + "" == parts[0];
    } else {
      var rest := Join(parts[1..], sep);
      SplitJoin(parts[1..], sep);
      assert parts[0] + [sep] + rest == parts[0] + ([sep] + rest);
      SplitPrefix(parts[0], [sep] + rest, sep);
      assert ([sep] + rest)[0] == sep && ([sep] + rest)[1..] == rest;
      assert Split([sep] + rest, sep) == [""] + parts[1..];
      assert parts[0] + "" == parts[0];
      assert parts == [parts[0]] + parts[1..];
    }
  }

  /** A join of non-empty parts is empty exactly when there are no parts. */
  lemma JoinEmpty(parts: seq<string>, sep: char)
    requires forall p :: p in parts ==> p != ""
    ensures Join(parts, sep) == "" <==> |parts| == 0
  {
    if |parts| == 1 {
      assert parts[0] in parts;
    } else if |parts| > 1 {
      assert |Join(parts, sep)| >= |parts[0]| + 1;
    }
  }

  lemma {:induction false} CountAppend(a: string, b: string, c: char)
    ensures Count(a + b, c) == Count(a, c) + Count(b, c)
  {
    if a != [] {
      CountAppend(a[1..], b, c);
      assert (a + b)[1..] == a[1..] + b;
    } else {
      assert a + b == b;
    }
  }

  lemma {:induction false} CountAbsent(s: string, c: char)
    requires c !in s
    ensures Count(s, c) == 0
  {
    if s != [] {
      CountAbsent(s[1..], c);
    }
  }

  /** A join has one separator between consecutive parts and no other. */
  lemma {:induction false} CountJoin(parts: seq<string>, sep: char)
    requires |parts| >= 1
    requires forall p :: p in parts ==> sep !in p
    ensures Count(Join(parts, sep), sep) == |parts| - 1
  {
    CountAbsent(parts[0], sep);
    if |parts| > 1 {
      CountJoin(parts[1..], sep);
      CountAppend(parts[0] + [sep], Join(parts[1..], sep), sep);
      CountAppend(parts[0], [sep], sep);
    }
  }

  /** Cutting `k + sep + v` gives `(k, v)` back when `k` has no separator. */
  lemma {:induction false} CutJoin(k: string, v: string, sep: char)
    requires sep !in k
    ensures Cut(k + [sep] + v, sep) == (k, v)
  {
    if k != [] {
      CutJoin(k[1..], v, sep);
      assert (k + [sep] + v)[1..] == k[1..] + [sep] + v;
      assert [k[0]] + k[1..] == k;
    } else {
      assert k + [sep] + v == [sep] + v;
    }
  }
}
