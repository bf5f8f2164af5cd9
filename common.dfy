/** Values shared by every part of the model: optional values, document ids,
    times, request-body fields, JavaScript truthiness, the host primitives the
    handlers call but which are not modelled, and the `trim` string setter. */
module Common {

  datatype Option<T> = None | Some(value: T)

  /** The string form of a MongoDB ObjectId. */
  type Id = string

  /** A JavaScript Date, as milliseconds since the epoch. */
  type Time = int

  /** A request-body field as Express hands it over: a string (form data,
      query strings, JSON strings) or a JSON number. */
  datatype Field = Text(text: string) | Num(num: real)

  /** An uploaded file as multer's disk storage describes it: where it was
      saved and under which name.  Disk storage keeps no `buffer`. */
  datatype Upload = Upload(path: string, filename: string)

  /** The primitives the handlers use without this model interpreting them:
      - parseDate: `new Date(s)`, None when the result is an Invalid Date;
      - castDate: Mongoose's Date cast of a non-empty string, None when it
        fails (it reads a numeric string outside the range of years as
        milliseconds, so it is not `new Date(s)`);
      - parseInt: JavaScript `parseInt(s)`, None when it yields NaN;
      - toNumber: JavaScript `Number(s)`, None when it yields NaN;
      - regexMatch(pattern, text): a case-insensitive `$regex` test. */
  datatype Host = Host(
    parseDate: string -> Option<Time>,
    castDate: string -> Option<Time>,
    parseInt: string -> Option<int>,
    toNumber: string -> Option<real>,
    regexMatch: (string, string) -> bool)

  /** JavaScript truthiness of an optional string: absent and "" are falsy. */
  predicate Present(s: Option<string>) {
    s.Some? && s.value != ""
  }

  /** JavaScript truthiness of an optional body field: absent, "" and 0 are falsy. */
  predicate FieldPresent(f: Option<Field>) {
    match f
    case None => false
    case Some(Text(t)) => t != ""
    case Some(Num(n)) => n != 0.0
  }

  /** The numeric value the JavaScript comparison operators see in a
      field, `Number(s)` for a string; None stands for NaN. */
  function NumberOf(f: Field, host: Host): Option<real> {
    match f
    case Text(t) => host.toNumber(t)
    case Num(n) => Some(n)
  }

  /** Mongoose's Number cast: the empty string becomes null, which fails
      `required` (None here), and any other value is cast as `Number` would;
      None stands for a failed cast as well. */
  function CastNumber(f: Field, host: Host): (r: Option<real>)
    ensures f == Text("") ==> r.None?
    ensures f != Text("") ==> r == NumberOf(f, host)
  {
    if f == Text("") then None else NumberOf(f, host)
  }

  /** For a truthy field Mongoose's cast and the comparison operators see
      the same number; they part only on the empty string, which `Number`
      reads as 0. */
  lemma CastAgreesOnTruthy(f: Field, host: Host)
    ensures FieldPresent(Some(f)) ==> CastNumber(f, host) == NumberOf(f, host)
    ensures host.toNumber("") == Some(0.0) ==> NumberOf(Text(""), host) == Some(0.0)
                                               && CastNumber(Text(""), host).None?
  {
  }

  /** The characters `String.prototype.trim` removes: the WhiteSpace of
      section 12.2 of ECMA-262 (tab, vertical tab, form feed, the byte-order
      mark and every space separator of category Zs) and the LineTerminators
      of section 12.3 (line feed, carriage return, line and paragraph
      separator). */
  predicate IsSpace(c: char) {
    || c == '\t' || c == '\U{B}' || c == '\U{C}' || c == '\U{FEFF}'
    || c == ' ' || c == '\U{A0}' || c == '\U{1680}' || '\U{2000}' <= c <= '\U{200A}'
    || c == '\U{202F}' || c == '\U{205F}' || c == '\U{3000}'
    || c == '\n' || c == '\r' || c == '\U{2028}' || c == '\U{2029}'
  }

  /** `s` without its leading white space. */
  function TrimStart(s: string): (r: string)
    ensures |r| <= |s| && r == s[|s| - |r|..]
    ensures forall i :: 0 <= i < |s| - |r| ==> IsSpace(s[i])
    ensures r == [] || !IsSpace(r[0])
  {
    if s != [] && IsSpace(s[0]) then TrimStart(s[1..]) else s
  }

  /** `s` without its trailing white space. */
  function TrimEnd(s: string): (r: string)
    ensures |r| <= |s| && r == s[..|r|]
    ensures forall i :: |r| <= i < |s| ==> IsSpace(s[i])
    ensures r == [] || !IsSpace(r[|r| - 1])
  {
    if s != [] && IsSpace(s[|s| - 1]) then TrimEnd(s[..|s| - 1]) else s
  }

  /** The Mongoose `trim` setter: `s.trim()`. */
  function Trim(s: string): string {
    TrimEnd(TrimStart(s))
  }

  /** Where the slice `Trim(s)` starts in `s`. */
  function TrimFrom(s: string): nat {
    |s| - |TrimStart(s)|
  }

  /** Trimming keeps one contiguous slice of the input, starting at
      `TrimFrom(s)`. */
  lemma TrimIsSlice(s: string)
    ensures TrimFrom(s) + |Trim(s)| <= |s|
    ensures Trim(s) == s[TrimFrom(s)..TrimFrom(s) + |Trim(s)|]
  {
    PrefixOfSuffix(s, TrimStart(s), Trim(s));
  }

  /** A prefix of a suffix is a slice. */
  lemma PrefixOfSuffix<T>(s: seq<T>, a: seq<T>, t: seq<T>)
    requires |a| <= |s| && a == s[|s| - |a|..]
    requires |t| <= |a| && t == a[..|t|]
    ensures |s| - |a| + |t| <= |s| && t == s[|s| - |a|..|s| - |a| + |t|]
  {
    var i := |s| - |a|;
    assert a[..|t|] == s[i..i + |t|];
  }

  /** What trimming drops around that slice is white space. */
  lemma TrimDropsSpaces(s: string)
    ensures forall k :: 0 <= k < TrimFrom(s) ==> IsSpace(s[k])
    ensures forall k :: TrimFrom(s) + |Trim(s)| <= k < |s| ==> IsSpace(s[k])
  {
    var a := TrimStart(s);
    var t := TrimEnd(a);
    var i := |s| - |a|;
    assert a == s[i..];
    forall k | i + |t| <= k < |s| ensures IsSpace(s[k]) {
      assert s[k] == a[k - i];
    }
  }

  /** A single white-space character trims to the empty string. */
  lemma SingleSpaceTrims(c: char)
    requires IsSpace(c)
    ensures Trim([c]) == []
  {
    assert [c][1..] == [];
    assert TrimStart([c]) == TrimStart([]);
  }

  /** A trimmed string has no white space at either end. */
  lemma TrimmedEnds(s: string)
    ensures Trim(s) == [] || (!IsSpace(Trim(s)[0]) && !IsSpace(Trim(s)[|Trim(s)| - 1]))
  {
    var a := TrimStart(s);
    var t := TrimEnd(a);
    if t != [] {
      assert t[0] == a[0];
    }
  }

  /** Trimming twice is trimming once. */
  lemma TrimIdempotent(s: string)
    ensures Trim(Trim(s)) == Trim(s)
  {
    TrimmedEnds(s);
    var t := Trim(s);
    if t != [] {
      assert TrimStart(t) == t;
      assert TrimEnd(t) == t;
    }
  }

  /** `Model.find()` with an empty filter: every document of a collection
      with its id, in an order the database chooses. */
  ghost function Documents<T(!new)>(m: map<Id, T>): (l: seq<(Id, T)>)
    ensures |l| == |m|
    ensures forall e :: e in l <==> e.0 in m && m[e.0] == e.1
    decreases |m|
  {
    if m == map[] then []
    else
      var k :| k in m;
      var smaller := m - {k};
      assert |smaller.Keys| == |m.Keys| - 1 by {
        assert smaller.Keys == m.Keys - {k};
      }
      [(k, m[k])] + Documents(smaller)
  }
}
