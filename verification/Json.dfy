/** Decoded JSON trees and the safe dotted-path lookups (internal/bluelink/parse_ccs2.go).
    A path is the list of its segments; SplitDots says how a dotted string becomes one. A missing
    segment and a JSON null are both Go's nil, here Null. */
module Json {
  import opened Wrappers

  datatype Json =
    | Null
    | Num(number: real)
    | Bool(truth: bool)
    | Str(text: string)
    | Arr(items: seq<Json>)
    | Obj(fields: map<string, Json>)

  type Path = seq<string>

  function GetPath(j: Json, path: Path): Json {
    if path == [] then j
    else if j.Obj? && path[0] in j.fields then GetPath(j.fields[path[0]], path[1..])
    else Null
  }

  /** One step down: the member, or null. */
  function Child(j: Json, name: string): Json {
    if j.Obj? && name in j.fields then j.fields[name] else Null
  }

  lemma PathStep(j: Json, name: string, rest: Path, path: Path)
    requires path == [name] + rest
    ensures GetPath(j, path) == GetPath(Child(j, name), rest)
  {
    assert path[0] == name && path[1..] == rest;
  }

  lemma GetMember(j: Json, name: string)
    ensures GetPath(j, [name]) == Child(j, name)
  {
    PathStep(j, name, [], [name]);
  }

  lemma GetPath2(j: Json, a: string, b: string)
    ensures GetPath(j, [a, b]) == Child(Child(j, a), b)
  {
    PathStep(j, a, [b], [a, b]);
    GetMember(Child(j, a), b);
  }

  lemma GetPath3(j: Json, a: string, b: string, c: string)
    ensures GetPath(j, [a, b, c]) == Child(Child(Child(j, a), b), c)
  {
    PathStep(j, a, [b, c], [a, b, c]);
    GetPath2(Child(j, a), b, c);
  }

  lemma GetPath4(j: Json, a: string, b: string, c: string, d: string)
    ensures GetPath(j, [a, b, c, d]) == Child(Child(Child(Child(j, a), b), c), d)
  {
    PathStep(j, a, [b, c, d], [a, b, c, d]);
    GetPath3(Child(j, a), b, c, d);
  }

  lemma GetPath5(j: Json, a: string, b: string, c: string, d: string, e: string)
    ensures GetPath(j, [a, b, c, d, e]) == Child(Child(Child(Child(Child(j, a), b), c), d), e)
  {
    PathStep(j, a, [b, c, d, e], [a, b, c, d, e]);
    GetPath4(Child(j, a), b, c, d, e);
  }

  lemma GetPath6(j: Json, a: string, b: string, c: string, d: string, e: string, f: string)
    ensures GetPath(j, [a, b, c, d, e, f]) == Child(Child(Child(Child(Child(Child(j, a), b), c), d), e), f)
  {
    PathStep(j, a, [b, c, d, e, f], [a, b, c, d, e, f]);
    GetPath5(Child(j, a), b, c, d, e, f);
  }

  /** getPath's own loop over the segments. */
  method WalkPath(m: map<string, Json>, path: Path) returns (cur: Json)
    ensures cur == GetPath(Obj(m), path)
  {
    cur := Obj(m);
    for i := 0 to |path|
      invariant GetPath(cur, path[i..]) == GetPath(Obj(m), path)
    {
      if !cur.Obj? || path[i] !in cur.fields {
        return Null;
      }
      cur := cur.fields[path[i]];
    }
  }

  /** Looking up p.q is looking up q below p. */
  lemma {:induction false} GetPathComposes(j: Json, p: Path, q: Path)
    ensures GetPath(j, p + q) == GetPath(GetPath(j, p), q)
  {
    if p == [] {
      assert p + q == q;
    } else {
      assert (p + q)[0] == p[0] && (p + q)[1..] == p[1..] + q;
      if j.Obj? && p[0] in j.fields {
        GetPathComposes(j.fields[p[0]], p[1..], q);
      } else if q != [] {
        assert GetPath(Null, q) == Null;
      }
    }
  }

  // ---------------------------------------------------------------------------
  // Dotted strings
  // ---------------------------------------------------------------------------

  function SplitDots(s: string): (segments: Path)
    ensures |segments| > 0
  {
    if s == "" then [""]
    else
      var rest := SplitDots(s[1..]);
      if s[0] == '.' then [""] + rest else [[s[0]] + rest[0]] + rest[1..]
  }

  function JoinDots(segments: Path): string
    requires |segments| > 0
  {
    if |segments| == 1 then segments[0] else segments[0] + "." + JoinDots(segments[1..])
  }

  lemma {:induction false} SplitDotsAppend(s: string, t: string)
    ensures SplitDots(s + "." + t) == SplitDots(s) + SplitDots(t)
  {
    var whole := s + "." + t;
    if s == "" {
      assert whole[0] == '.' && whole[1..] == t;
    } else {
      assert whole[0] == s[0] && whole[1..] == s[1..] + "." + t;
      SplitDotsAppend(s[1..], t);
    }
  }

  lemma {:induction false} SplitDotsOfSegment(s: string)
    requires '.' !in s
    ensures SplitDots(s) == [s]
  {
    if s != "" {
      SplitDotsOfSegment(s[1..]);
      assert [s[0]] + s[1..] == s;
    }
  }

  /** Splitting a dotted path gives back exactly the segments it was written from. */
  lemma {:induction false} SplitDotsInvertsJoin(segments: Path)
    requires |segments| > 0 && forall i | 0 <= i < |segments| :: '.' !in segments[i]
    ensures SplitDots(JoinDots(segments)) == segments
  {
    SplitDotsOfSegment(segments[0]);
    if |segments| > 1 {
      SplitDotsInvertsJoin(segments[1..]);
      SplitDotsAppend(segments[0], JoinDots(segments[1..]));
    }
  }

  /** The composition law on the dotted strings themselves. */
  lemma DottedLookupComposes(j: Json, p: string, q: string)
    ensures GetPath(j, SplitDots(p + "." + q)) == GetPath(GetPath(j, SplitDots(p)), SplitDots(q))
  {
    SplitDotsAppend(p, q);
    GetPathComposes(j, SplitDots(p), SplitDots(q));
  }

  // ---------------------------------------------------------------------------
  // Typed lookups
  // ---------------------------------------------------------------------------

  function AsFloat(j: Json): Option<real> {
    match j
    case Num(n) => Some(n)
    case Bool(b) => Some(if b then 1.0 else 0.0)
    case _ => None
  }

  /** Go's int(f): truncation toward zero. */
  function Truncate(x: real): int {
    if x >= 0.0 then x.Floor else -((-x).Floor)
  }

  function GetFloat(j: Json, path: Path): Option<real> {
    AsFloat(GetPath(j, path))
  }

  function AsInt(j: Json): Option<int> {
    match AsFloat(j)
    case Some(f) => Some(Truncate(f))
    case None => None
  }

  function GetInt(j: Json, path: Path): Option<int> {
    AsInt(GetPath(j, path))
  }

  function AsString(j: Json): string {
    if j.Str? then j.text else ""
  }

  function GetString(j: Json, path: Path): string {
    AsString(GetPath(j, path))
  }

  function AsBool(j: Json): Option<bool> {
    if j.Bool? then Some(j.truth) else None
  }

  function GetBool(j: Json, path: Path): Option<bool> {
    AsBool(GetPath(j, path))
  }
}
