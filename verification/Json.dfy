/** JSON values as the scripts see them after parsing, and the string helpers they apply. */
module JsonValues {
  import opened Basics

  datatype Json =
    | Null
    | Bool(b: bool)
    | Num(n: real)
    | Str(s: string)
    | Arr(items: seq<Json>)
    | Obj(fields: map<string, Json>)

  type Record = map<string, Json>

  /** `record.get(key)`: an absent key reads as null. */
  function Get(record: Record, key: string): Json {
    if key in record then record[key] else Null
  }

  /** `value.get(key)` on something that may not be an object. */
  function Field(value: Json, key: string): Json {
    if value.Obj? then Get(value.fields, key) else Null
  }

  predicate Truthy(v: Json) {
    match v
    case Null => false
    case Bool(b) => b
    case Num(n) => n != 0.0
    case Str(s) => s != ""
    case Arr(items) => items != []
    case Obj(fields) => fields != map[]
  }

  predicate IsSpace(c: char) {
    c == ' ' || c == '\t' || c == '\n' || c == '\r' || c as int == 11 || c as int == 12
  }

  function StripLeft(s: string): string {
    if s != "" && IsSpace(s[0]) then StripLeft(s[1..]) else s
  }

  function StripRight(s: string): string {
    if s != "" && IsSpace(s[|s| - 1]) then StripRight(s[..|s| - 1]) else s
  }

  function Strip(s: string): string {
    StripRight(StripLeft(s))
  }

  function UpperChar(c: char): char {
    if 'a' <= c <= 'z' then (c as int - 32) as char else c
  }

  function Upper(s: string): (r: string)
    ensures |r| == |s|
  {
    Map(s, UpperChar)
  }

  predicate Contains(s: string, part: string) {
    part <= s || (s != "" && Contains(s[1..], part))
  }

  // ---------- what the helpers come to ----------

  /** Only the letters a to z change, each into the one 32 places before it. */
  lemma UpperMeans(s: string, i: nat)
    requires i < |s|
    ensures Upper(s)[i] as int == if 97 <= s[i] as int <= 122 then s[i] as int - 32 else s[i] as int
  {
    assert 'a' as int == 97 && 'z' as int == 122;
  }

  /** The text holds the part somewhere. */
  lemma {:induction false} ContainsMeans(s: string, part: string)
    ensures Contains(s, part) <==> exists i: nat :: i <= |s| && part <= s[i..]
  {
    if part <= s {
      assert s[0..] == s;
    } else if s == "" {
    } else {
      ContainsMeans(s[1..], part);
      if i: nat :| i <= |s[1..]| && part <= s[1..][i..] {
        assert s[1..][i..] == s[i + 1..];
      }
      if i: nat :| i <= |s| && part <= s[i..] {
        assert i > 0 by { assert s[0..] == s; }
        assert s[1..][i - 1..] == s[i..];
      }
    }
  }

  predicate OnlySpaces(s: string) {
    forall c :: c in s ==> c in " \t\n\r" || c as int == 11 || c as int == 12
  }

  lemma {:induction false} StripLeftMeans(s: string) returns (a: string)
    ensures s == a + StripLeft(s) && OnlySpaces(a)
    ensures StripLeft(s) != "" ==> !OnlySpaces([StripLeft(s)[0]])
  {
    if s == "" || !IsSpace(s[0]) {
      a := "";
      assert s == a + s;
      if s != "" {
        assert s[0] in [s[0]];
      }
    } else {
      var rest := StripLeftMeans(s[1..]);
      a := [s[0]] + rest;
      assert s == [s[0]] + s[1..];
    }
  }

  lemma {:induction false} StripRightMeans(s: string) returns (b: string)
    ensures s == StripRight(s) + b && OnlySpaces(b)
    ensures StripRight(s) != "" ==> StripRight(s)[0] == s[0] && !OnlySpaces([StripRight(s)[|StripRight(s)| - 1]])
  {
    if s == "" || !IsSpace(s[|s| - 1]) {
      b := "";
      assert s == s + b;
      if s != "" {
        assert s[|s| - 1] in [s[|s| - 1]];
      }
    } else {
      var rest := StripRightMeans(s[..|s| - 1]);
      b := rest + [s[|s| - 1]];
      assert s == s[..|s| - 1] + [s[|s| - 1]];
    }
  }

  /** Stripping takes blanks off both ends, and what is left neither begins nor ends with one. */
  lemma StripMeans(s: string) returns (a: string, b: string)
    ensures s == a + Strip(s) + b && OnlySpaces(a) && OnlySpaces(b)
    ensures Strip(s) != "" ==> !OnlySpaces([Strip(s)[0]]) && !OnlySpaces([Strip(s)[|Strip(s)| - 1]])
  {
    a := StripLeftMeans(s);
    b := StripRightMeans(StripLeft(s));
  }
}
