/** Value types shared by every part of the model: optional values,
    System.Numerics vectors, raylib colours and the .NET string predicates
    the engine relies on. */
module Common {

  datatype Option<T> = None | Some(value: T)

  /** System.Numerics.Vector3. Components are kept as reals; the engine never
      does arithmetic on them in the modelled code. */
  datatype Vec3 = Vec3(x: real, y: real, z: real)

  const Zero := Vec3(0.0, 0.0, 0.0)
  const One := Vec3(1.0, 1.0, 1.0)
  const UnitY := Vec3(0.0, 1.0, 0.0)

  /** raylib Color (four bytes). */
  datatype Color = Color(r: int, g: int, b: int, a: int)

  const White := Color(255, 255, 255, 255)
  const Blank := Color(0, 0, 0, 0)
  const Gold := Color(255, 203, 0, 255)
  /** default(Color): every channel zero. */
  const DefaultColor := Color(0, 0, 0, 0)

  /** .NET char.IsWhiteSpace: the Unicode White_Space characters. */
  predicate IsWhiteSpace(c: char) {
    var n := c as int;
    n == 0x20 || 0x09 <= n <= 0x0D || n == 0x85 || n == 0xA0 || n == 0x1680
    || 0x2000 <= n <= 0x200A || n == 0x2028 || n == 0x2029 || n == 0x202F
    || n == 0x205F || n == 0x3000
  }

  /** string.IsNullOrWhiteSpace on a string that is not null. */
  predicate IsBlank(s: string) {
    forall i :: 0 <= i < |s| ==> IsWhiteSpace(s[i])
  }

  /** string.IsNullOrWhiteSpace on a nullable string. */
  predicate IsNullOrWhiteSpace(s: Option<string>) {
    s.None? || IsBlank(s.value)
  }

  /** string.IsNullOrEmpty on a nullable string. */
  predicate IsNullOrEmpty(s: Option<string>) {
    s.None? || s.value == ""
  }

  /** char.IsAsciiLetterOrDigit. */
  predicate IsAsciiLetterOrDigit(c: char) {
    ('a' <= c <= 'z') || ('A' <= c <= 'Z') || ('0' <= c <= '9')
  }

  /** Lower-cases the ASCII letters and keeps every other character. */
  function ToLower(s: string): (r: string)
    ensures |r| == |s|
    ensures forall i :: 0 <= i < |s| ==> r[i] == LowerChar(s[i])
  {
    seq(|s|, i requires 0 <= i < |s| => LowerChar(s[i]))
  }

  function LowerChar(c: char): char {
    if 'A' <= c <= 'Z' then (c as int + 32) as char else c
  }

  /** Case-insensitive equality as far as the model's case folding goes. */
  predicate EqualsIgnoreCase(a: string, b: string) {
    |a| == |b| && forall i :: 0 <= i < |a| ==> LowerChar(a[i]) == LowerChar(b[i])
  }

  /** string.TrimStart() */
  function TrimStart(s: string): string {
    if s == [] || !IsWhiteSpace(s[0]) then s
    else TrimStart(s[1..])
  }

  /** TrimStart removes exactly the leading white space. */
  lemma {:induction false} TrimStartSpec(s: string)
    ensures var r := TrimStart(s);
      && |r| <= |s| && r == s[|s| - |r|..]
      && (r == [] || !IsWhiteSpace(r[0]))
      && IsBlank(s[..|s| - |r|])
  {
    if s != [] && IsWhiteSpace(s[0]) {
      TrimStartSpec(s[1..]);
      var t := TrimStart(s[1..]);
      assert s[1..][..|s| - 1 - |t|] == s[1..|s| - |t|];
    }
  }

  /** string.TrimEnd() */
  function TrimEnd(s: string): string {
    if s == [] || !IsWhiteSpace(s[|s| - 1]) then s
    else TrimEnd(s[..|s| - 1])
  }

  /** TrimEnd removes exactly the trailing white space. */
  lemma {:induction false} TrimEndSpec(s: string)
    ensures var r := TrimEnd(s);
      && |r| <= |s| && r == s[..|r|]
      && (r == [] || !IsWhiteSpace(r[|r| - 1]))
      && IsBlank(s[|r|..])
  {
    if s != [] && IsWhiteSpace(s[|s| - 1]) {
      TrimEndSpec(s[..|s| - 1]);
      var t := TrimEnd(s[..|s| - 1]);
      forall i | 0 <= i < |s| - |t|
        ensures IsWhiteSpace(s[|t|..][i])
      {
        if i < |s| - 1 - |t| {
          assert s[|t|..][i] == s[..|s| - 1][|t|..][i];
        }
      }
    }
  }

  /** string.Trim() */
  function Trim(s: string): string {
    TrimEnd(TrimStart(s))
  }

  /** Trim yields white space only for a blank string: IsNullOrWhiteSpace(s.Trim()) iff IsNullOrWhiteSpace(s). */
  lemma TrimBlank(s: string)
    ensures IsBlank(Trim(s)) <==> IsBlank(s)
    ensures IsBlank(Trim(s)) <==> Trim(s) == []
  {
    TrimStartSpec(s);
    TrimEndSpec(TrimStart(s));
  }

  /** string.Split(c): every occurrence of c separates two pieces, empty pieces are kept. */
  function Split(s: string, c: char): (r: seq<string>)
    ensures |r| >= 1
    ensures forall i :: 0 <= i < |r| ==> c !in r[i]
  {
    if c !in s then [s]
    else
      var k := IndexOf(s, c);
      [s[..k]] + Split(s[k + 1..], c)
  }

  /** The inverse of Split: the pieces with c between each two. */
  function Join(pieces: seq<string>, c: char): string
    requires |pieces| >= 1
  {
    if |pieces| == 1 then pieces[0] else pieces[0] + [c] + Join(pieces[1..], c)
  }

  /** Splitting loses nothing: joining the pieces with the separator gives the string
      back. With Split's own ensures (no piece holds the separator) this pins the pieces. */
  lemma {:induction false} SplitJoin(s: string, c: char)
    ensures Join(Split(s, c), c) == s
    decreases |s|
  {
    if c in s {
      var k := IndexOf(s, c);
      var rest := Split(s[k + 1..], c);
      SplitJoin(s[k + 1..], c);
      assert ([s[..k]] + rest)[1..] == rest;
      assert s == s[..k] + [c] + s[k + 1..];
    }
  }

  function IndexOf(s: string, c: char): (k: nat)
    requires c in s
    ensures k < |s| && s[k] == c && c !in s[..k]
  {
    if s[0] == c then 0 else 1 + IndexOf(s[1..], c)
  }

  /** string.Replace(a, b) for single characters. */
  function ReplaceChar(s: string, a: char, b: char): (r: string)
    ensures |r| == |s|
    ensures forall i :: 0 <= i < |s| ==> r[i] == if s[i] == a then b else s[i]
  {
    if s == [] then [] else [if s[0] == a then b else s[0]] + ReplaceChar(s[1..], a, b)
  }

  /** Concatenation is associative; stating it for the terms at hand spares the
      verifier an extensional proof. */
  lemma AppendAssoc<T>(a: seq<T>, b: seq<T>, c: seq<T>)
    ensures (a + b) + c == a + (b + c)
  {
  }

  /** A sequence without repeated elements: the contents of a .NET HashSet. */
  predicate NoDup<T(==)>(s: seq<T>) {
    forall i, j :: 0 <= i < j < |s| ==> s[i] != s[j]
  }

  /** HashSet.Add: appends an element that is not there yet. */
  function Insert<T(==)>(s: seq<T>, x: T): (r: seq<T>)
    ensures NoDup(s) ==> NoDup(r)
    ensures x in r && |s| <= |r| <= |s| + 1 && r[..|s|] == s
  {
    if x in s then s else s + [x]
  }

  /** One more element keeps a sequence free of repetitions exactly when it is new. */
  lemma NoDupSnoc<T>(a: seq<T>, x: T)
    ensures NoDup(a + [x]) <==> NoDup(a) && x !in a
  {
    if NoDup(a + [x]) {
      assert forall i :: 0 <= i < |a| ==> (a + [x])[i] == a[i];
      assert (a + [x])[|a|] == x;
    }
  }

  /** A prefix of a sequence without repetitions has none either. */
  lemma NoDupPrefix<T>(a: seq<T>, b: seq<T>)
    requires a <= b && NoDup(b)
    ensures NoDup(a)
  {
    assert forall i :: 0 <= i < |a| ==> a[i] == b[i];
  }
}
