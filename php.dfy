/** The parts of PHP's runtime behaviour that the client relies on: the values
    `json_decode($s, true)` produces, reading a key of such a value, `isset`,
    `??`, `empty` of a nullable string, and `implode`. */
module Php {

  /** A nullable value (`null|string` in the source's docblocks). */
  datatype Option<T> = None | Some(value: T)

  /** A value as `json_decode($s, true)` yields it. JSON objects and lists both
      become PHP arrays; an object is keyed by its member names. */
  datatype Value =
    | JNull
    | JBool(b: bool)
    | JInt(i: int)
    | JFloat(f: real)
    | JStr(s: string)
    | JList(items: seq<Value>)
    | JObj(fields: map<string, Value>)

  /** Library code the model does not look into: `json_decode($s, true)`,
      the `(float)` cast and the `(int)` cast. */
  datatype Runtime = Runtime(
    jsonDecode: string -> Value,
    floatCast: Value -> real,
    intCast: Value -> int)

  /** `$v[$key]` for a string key: a missing key, or a value that is not a
      keyed array, reads as null. */
  function Field(v: Value, key: string): Value
  {
    if v.JObj? && key in v.fields then v.fields[key] else JNull
  }

  /** `isset($v[$key])`: the key is there and its value is not null. */
  predicate IsSet(v: Value, key: string)
  {
    Field(v, key) != JNull
  }

  /** `$v[$key] ?? $default`. */
  function Coalesce(v: Value, key: string, default: Value): Value
  {
    if IsSet(v, key) then Field(v, key) else default
  }

  /** `empty($s)` for a nullable string: null, "" and "0" are empty. */
  predicate IsEmpty(s: Option<string>)
  {
    s == None || s == Some("") || s == Some("0")
  }

  /** `implode($glue, $pieces)`: the pieces in order, the glue between
      neighbours. */
  function Implode(glue: string, pieces: seq<string>): string
  {
    if |pieces| == 0 then ""
    else if |pieces| == 1 then pieces[0]
    else pieces[0] + glue + Implode(glue, pieces[1..])
  }

  /** `explode($sep, $s)` for a one-character separator: the maximal runs
      between separators, so there is always at least one piece and no piece
      holds the separator. */
  function Explode(sep: char, s: string): (r: seq<string>)
    ensures |r| >= 1
    ensures forall i :: 0 <= i < |r| ==> sep !in r[i]
    decreases |s|
  {
    if |s| == 0 then [""]
    else if s[0] == sep then [""] + Explode(sep, s[1..])
    else
      var rest := Explode(sep, s[1..]);
      [[s[0]] + rest[0]] + rest[1..]
  }

  lemma {:induction false} ExplodeWithoutSeparator(sep: char, p: string)
    requires sep !in p
    ensures Explode(sep, p) == [p]
    decreases |p|
  {
    if |p| > 0 {
      ExplodeWithoutSeparator(sep, p[1..]);
      assert [p[0]] + p[1..] == p;
    }
  }

  lemma {:induction false} ExplodeAfterPiece(sep: char, p: string, t: string)
    requires sep !in p
    ensures Explode(sep, p + [sep] + t) == [p] + Explode(sep, t)
    decreases |p|
  {
    var s := p + [sep] + t;
    if |p| == 0 {
      assert s == [sep] + t;
      assert s[1..] == t;
    } else {
      assert s[0] == p[0];
      assert s[1..] == p[1..] + [sep] + t;
      ExplodeAfterPiece(sep, p[1..], t);
      assert [p[0]] + p[1..] == p;
    }
  }

  /** Joining with a one-character glue loses nothing: splitting the result on
      that character gives back the pieces, in order, provided there is at
      least one piece and none contains the glue. */
  lemma {:induction false} ExplodeImplode(sep: char, pieces: seq<string>)
    requires |pieces| > 0
    requires forall i :: 0 <= i < |pieces| ==> sep !in pieces[i]
    ensures Explode(sep, Implode([sep], pieces)) == pieces
    decreases |pieces|
  {
    if |pieces| == 1 {
      ExplodeWithoutSeparator(sep, pieces[0]);
    } else {
      var tail := pieces[1..];
      assert forall i :: 0 <= i < |tail| ==> sep !in tail[i] by {
        forall i | 0 <= i < |tail| ensures sep !in tail[i] {
          assert tail[i] == pieces[i + 1];
        }
      }
      ExplodeImplode(sep, tail);
      ExplodeAfterPiece(sep, pieces[0], Implode([sep], tail));
      assert [pieces[0]] + tail == pieces;
    }
  }
}
