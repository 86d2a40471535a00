/** The Python values the client handles: strings, lists of strings, and
    what `str()`, `str.upper()` and `list += str` do to them. */
module Values {

  datatype Option<T> = None | Some(value: T)
  {
    function GetOr(default: T): T
    {
      match this
      case Some(v) => v
      case None => default
    }
  }

  /** A `Union[str, List[str]]` attribute such as `zoneId` or `color`. */
  datatype Value = Str(s: string) | List(items: seq<string>)

  /** `repr` of the items of a list of strings, separated by ", ", for items
      that `repr` writes in single quotes with nothing escaped. */
  function ReprItems(items: seq<string>): string
  {
    if items == [] then ""
    else if |items| == 1 then "'" + items[0] + "'"
    else "'" + items[0] + "', " + ReprItems(items[1..])
  }

  /** What an f-string writes for the value: the string itself, or the
      list's `repr` (each item in single quotes, as it is). */
  function Format(v: Value): string
  {
    match v
    case Str(s) => s
    case List(items) => "[" + ReprItems(items) + "]"
  }

  function UpperChar(c: char): char
  {
    if 'a' <= c <= 'z' then (c as int - 32) as char else c
  }

  predicate NotLowerAscii(c: char)
  {
    !('a' <= c <= 'z')
  }

  /** `str.upper()` on ASCII letters; every other character is kept. */
  function Upper(s: string): string
  {
    if s == [] then [] else [UpperChar(s[0])] + Upper(s[1..])
  }

  lemma {:induction false} UpperAt(s: string)
    ensures |Upper(s)| == |s|
    ensures forall i :: 0 <= i < |s| ==> Upper(s)[i] == UpperChar(s[i]) && NotLowerAscii(Upper(s)[i])
  {
    if s != [] {
      UpperAt(s[1..]);
      assert forall i :: 1 <= i < |s| ==> Upper(s)[i] == Upper(s[1..])[i - 1];
    }
  }

  lemma {:induction false} UpperIdempotent(s: string)
    ensures Upper(Upper(s)) == Upper(s)
  {
    if s != [] {
      UpperIdempotent(s[1..]);
      assert Upper(s)[1..] == Upper(s[1..]);
    }
  }

  /** The one-character strings that `list += s` appends, in order. */
  function Characters(s: string): (r: seq<string>)
    ensures |r| == |s|
    ensures forall i :: 0 <= i < |s| ==> r[i] == [s[i]]
  {
    if s == [] then [] else [[s[0]]] + Characters(s[1..])
  }

  /** `"".join(parts)`. */
  function Join(parts: seq<string>): string
  {
    if parts == [] then "" else parts[0] + Join(parts[1..])
  }

  /** The characters of a string join back to the string. */
  lemma {:induction false} JoinCharacters(s: string)
    ensures Join(Characters(s)) == s
  {
    if s != [] {
      JoinCharacters(s[1..]);
      assert Characters(s)[1..] == Characters(s[1..]);
      assert s == [s[0]] + s[1..];
    }
  }

  /** `acc += s` on a Python list: a string is iterated, so the list grows
      by one one-character string per character of `s`. */
  method ExtendByCharacters(acc: seq<string>, s: string) returns (r: seq<string>)
    ensures |r| == |acc| + |s|
    ensures r[..|acc|] == acc
    ensures forall i :: 0 <= i < |s| ==> r[|acc| + i] == [s[i]]
  {
    r := acc;
    var i := 0;
    while i < |s|
      invariant 0 <= i <= |s|
      invariant |r| == |acc| + i
      invariant r[..|acc|] == acc
      invariant forall k :: 0 <= k < i ==> r[|acc| + k] == [s[k]]
    {
      r := r + [[s[i]]];
      i := i + 1;
    }
  }
}
