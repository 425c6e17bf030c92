/**
 JSON values and `JSON.stringify` without indentation (ECMA-262, section
 "JSON.stringify"): arrays are `[` elements joined by `,` `]`, objects are
 `{` `"key":value` members joined by `,` `}`. How a number is printed and how
 a string is quoted and escaped are left to the `Printer` oracle.
 */
module Json {
  import opened Strings

  datatype Value =
    | Null
    | Bool(b: bool)
    | Num(n: real)
    | Str(s: string)
    | Arr(items: seq<Value>)
    | Obj(members: seq<(string, Value)>)

  /** The two leaves of `JSON.stringify` the model does not spell out. */
  datatype Printer = Printer(number: real -> string, quote: string -> string)

  function Stringify(p: Printer, v: Value): string
    decreases v, 1
  {
    match v
    case Null => "null"
    case Bool(b) => if b then "true" else "false"
    case Num(n) => p.number(n)
    case Str(s) => p.quote(s)
    case Arr(items) => "[" + Elements(p, items) + "]"
    case Obj(members) => "{" + Members(p, members) + "}"
  }

  /** The elements of an array, separated by commas. */
  function Elements(p: Printer, items: seq<Value>): string
    decreases items, 0
  {
    if |items| == 0 then ""
    else if |items| == 1 then Stringify(p, items[0])
    else Stringify(p, items[0]) + "," + Elements(p, items[1..])
  }

  /** The members of an object, in the order of `members` (the object's property order), separated by commas. */
  function Members(p: Printer, members: seq<(string, Value)>): string
    decreases members, 0
  {
    if |members| == 0 then ""
    else
      var (key, value) := members[0];
      assert value < members[0];
      var m := p.quote(key) + ":" + Stringify(p, value);
      if |members| == 1 then m else m + "," + Members(p, members[1..])
  }

  /** Every element of an array is serialised, unchanged, inside the serialisation of the array. */
  lemma {:induction false} ElementOccurs(p: Printer, items: seq<Value>, i: nat)
    requires i < |items|
    ensures Occurs(Stringify(p, items[i]), Elements(p, items))
  {
    var head := Stringify(p, items[0]);
    if |items| == 1 {
      OccursInMiddle("", head, "");
      assert "" + head + "" == Elements(p, items);
    } else if i == 0 {
      OccursInMiddle("", head, "," + Elements(p, items[1..]));
      assert "" + head + ("," + Elements(p, items[1..])) == Elements(p, items);
    } else {
      ElementOccurs(p, items[1..], i - 1);
      assert items[1..][i - 1] == items[i];
      var k: nat :| OccursAt(Stringify(p, items[i]), Elements(p, items[1..]), k);
      OccursWithin(Stringify(p, items[i]), Elements(p, items[1..]), k, head + ",", "");
      assert head + "," + Elements(p, items[1..]) + "" == Elements(p, items);
    }
  }

  lemma ArrayElementOccurs(p: Printer, items: seq<Value>, i: nat)
    requires i < |items|
    ensures Occurs(Stringify(p, items[i]), Stringify(p, Arr(items)))
  {
    ElementOccurs(p, items, i);
    var a := Stringify(p, items[i]);
    var k: nat :| OccursAt(a, Elements(p, items), k);
    OccursWithin(a, Elements(p, items), k, "[", "]");
  }
}
