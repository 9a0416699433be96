/**
 * The small part of JavaScript's value semantics that the chat route and the
 * chat page rely on: truthiness, conversion to text inside a template literal,
 * `Array.prototype.join` and `String.prototype.trim`.
 */
module Js {
  import opened Results

  /**
   * A value that can sit in a match's metadata or in its rank score. A number
   * carries the text JavaScript renders it as (`String(n)`); NaN is kept apart
   * because it is falsy without being zero. Arrays hold strings, the only
   * lists the metadata store keeps.
   */
  datatype Value =
    | Undefined
    | Null
    | Bool(b: bool)
    | Num(n: real, text: string)
    | NaN
    | Str(s: string)
    | Array(items: seq<string>)

  /** The TypeErrors the modelled code can throw. */
  datatype Error =
    | ReadOfUndefined(property: string)  // reading a property of `undefined`
    | NotAFunction(name: string)         // calling a method the value does not have

  /** JavaScript truthiness: `undefined`, `null`, `false`, `0`, `NaN` and `""` are falsy. */
  predicate Truthy(v: Value) {
    match v
    case Undefined => false
    case Null => false
    case Bool(b) => b
    case Num(n, _) => n != 0.0
    case NaN => false
    case Str(s) => s != ""
    case Array(_) => true
  }

  /** The text a value becomes when interpolated into a template literal. */
  function ToText(v: Value): string {
    match v
    case Undefined => "undefined"
    case Null => "null"
    case Bool(b) => if b then "true" else "false"
    case Num(_, text) => text
    case NaN => "NaN"
    case Str(s) => s
    case Array(items) => Join(items, ",")
  }

  /** `${v || fallback}`: the value's own text when it is truthy, the fallback otherwise. */
  function TextOr(v: Value, fallback: string): (r: string)
    ensures Truthy(v) ==> r == ToText(v)
    ensures !Truthy(v) ==> r == fallback
  {
    if Truthy(v) then ToText(v) else fallback
  }

  /** `items.join(sep)`: the items in order with `sep` between neighbours. */
  function Join(items: seq<string>, sep: string): (r: string)
    decreases |items|
  {
    if |items| == 0 then ""
    else if |items| == 1 then items[0]
    else Join(items[..|items| - 1], sep) + sep + items[|items| - 1]
  }

  /** Joining two non-empty lists puts one separator between their joins, keeping the order. */
  lemma {:induction false} JoinAppend(xs: seq<string>, ys: seq<string>, sep: string)
    requires |xs| > 0 && |ys| > 0
    ensures Join(xs + ys, sep) == Join(xs, sep) + sep + Join(ys, sep)
    decreases |ys|
  {
    var zs := xs + ys;
    if |ys| == 1 {
      assert zs[..|zs| - 1] == xs;
    } else {
      var ys' := ys[..|ys| - 1];
      assert zs[..|zs| - 1] == xs + ys';
      JoinAppend(xs, ys', sep);
    }
  }

  /** Sum of the lengths of a list of strings. */
  function TotalLength(items: seq<string>): nat
    decreases |items|
  {
    if |items| == 0 then 0 else TotalLength(items[..|items| - 1]) + |items[|items| - 1]|
  }

  /** A join is exactly as long as its items plus one separator per gap. */
  lemma {:induction false} JoinLength(items: seq<string>, sep: string)
    requires |items| > 0
    ensures |Join(items, sep)| == TotalLength(items) + (|items| - 1) * |sep|
    decreases |items|
  {
    if |items| > 1 {
      JoinLength(items[..|items| - 1], sep);
    } else {
      assert items[..0] == [];
    }
  }

  /**
   * `(v || []).join(sep)`: a falsy value joins as the empty list; an array
   * joins its items; any other truthy value has no `join` method and throws.
   */
  function JoinOrEmpty(v: Value, sep: string): (r: Result<string, Error>)
    ensures r.Err? <==> Truthy(v) && !v.Array?
    ensures r.Err? ==> r.error == NotAFunction("join")
    ensures !Truthy(v) ==> r == Ok("")
    ensures v.Array? ==> r == Ok(Join(v.items, sep))
  {
    if !Truthy(v) then Ok("")
    else if v.Array? then Ok(Join(v.items, sep))
    else Err(NotAFunction("join"))
  }

  /** The concatenation of a list of strings, in order. */
  function Concat(parts: seq<string>): string
    decreases |parts|
  {
    if |parts| == 0 then "" else Concat(parts[..|parts| - 1]) + parts[|parts| - 1]
  }

  /** Concatenation distributes over appending lists. */
  lemma {:induction false} ConcatAppend(xs: seq<string>, ys: seq<string>)
    ensures Concat(xs + ys) == Concat(xs) + Concat(ys)
    decreases |ys|
  {
    if |ys| == 0 {
      assert xs + ys == xs;
    } else {
      var ys' := ys[..|ys| - 1];
      assert (xs + ys)[..|xs + ys| - 1] == xs + ys';
      ConcatAppend(xs, ys');
    }
  }

  /** The characters `String.prototype.trim` removes: white space and line terminators. */
  predicate IsSpace(c: char) {
    c == '\t' || c == '\n' || c == '\U{000B}' || c == '\U{000C}' || c == '\r' || c == ' '
    || c == '\U{00A0}' || c == '\U{1680}' || ('\U{2000}' <= c <= '\U{200A}')
    || c == '\U{2028}' || c == '\U{2029}' || c == '\U{202F}' || c == '\U{205F}'
    || c == '\U{3000}' || c == '\U{FEFF}'
  }

  /** Drops leading white space: the result is a suffix and everything dropped was space. */
  function TrimStart(s: string): (r: string)
    ensures |r| <= |s| && r == s[|s| - |r|..]
    ensures forall i | 0 <= i < |s| - |r| :: IsSpace(s[i])
    ensures |r| > 0 ==> !IsSpace(r[0])
    decreases |s|
  {
    if |s| > 0 && IsSpace(s[0]) then TrimStart(s[1..]) else s
  }

  /** Drops trailing white space: the result is a prefix and everything dropped was space. */
  function TrimEnd(s: string): (r: string)
    ensures |r| <= |s| && r == s[..|r|]
    ensures forall i | |r| <= i < |s| :: IsSpace(s[i])
    ensures |r| > 0 ==> !IsSpace(r[|r| - 1])
    decreases |s|
  {
    if |s| > 0 && IsSpace(s[|s| - 1]) then TrimEnd(s[..|s| - 1]) else s
  }

  /**
   * `s.trim()`: empty exactly when every character of `s` is white space;
   * otherwise it neither starts nor ends with white space.
   */
  function Trim(s: string): (r: string)
    ensures |r| <= |s|
    ensures r == "" <==> forall i | 0 <= i < |s| :: IsSpace(s[i])
    ensures |r| > 0 ==> !IsSpace(r[0]) && !IsSpace(r[|r| - 1])
  {
    TrimmedEmptyIff(s);
    TrimEnd(TrimStart(s))
  }

  /** Trimming both ends yields the empty string exactly when every character is white space. */
  lemma TrimmedEmptyIff(s: string)
    ensures var r := TrimEnd(TrimStart(s));
            (r == "" <==> forall i | 0 <= i < |s| :: IsSpace(s[i])) &&
            (|r| > 0 ==> !IsSpace(r[0]))
  {
    var t := TrimStart(s);
    var r := TrimEnd(t);
    if r == "" {
      assert |t| == 0;
    } else {
      assert r[0] == t[0] == s[|s| - |t|];
    }
  }
}
