/** Length-prefixed command identifiers (`becky-fx-system-command`). */
module CommandIds {
  import opened Wrappers
  import opened Text

  function Component(value: string): string {
    Decimal(|value|) + ":" + value
  }

  /** The components one after the other. */
  function Components(values: seq<string>): string {
    if values == [] then "" else Component(values[0]) + Components(values[1..])
  }

  lemma Associate(a: string, b: string, c: string)
    ensures a + (b + c) == (a + b) + c
  {
  }

  lemma {:induction false} ComponentsSnoc(values: seq<string>, last: string)
    ensures Components(values + [last]) == Components(values) + Component(last)
  {
    var all := values + [last];
    if values == [] {
      assert all[1..] == [];
    } else {
      ComponentsSnoc(values[1..], last);
      assert all[1..] == values[1..] + [last];
      Associate(Component(values[0]), Components(values[1..]), Component(last));
    }
  }

  method AppendIdComponent(encoded: string, value: string) returns (r: string)
    ensures r == encoded + Component(value)
  {
    r := encoded + Decimal(|value|);
    r := r + ":";
    r := r + value;
    assert r == encoded + Component(value);
  }

  method EncodeCommandId(command: string, args: seq<string>) returns (encoded: string)
    ensures encoded == Components([command] + args)
    ensures Decode(encoded) == Some([command] + args)
  {
    encoded := "";
    encoded := AppendIdComponent(encoded, command);
    var values := [command] + args;
    ComponentsSnoc([], command);
    assert [] + [command] == values[..1];
    for i := 0 to |args|
      invariant encoded == Components(values[..i + 1])
    {
      ComponentsSnoc(values[..i + 1], args[i]);
      assert values[..i + 2] == values[..i + 1] + [args[i]];
      encoded := AppendIdComponent(encoded, args[i]);
    }
    assert values[..|values|] == values;
    DecodeComponents(values);
  }

  /** Where the first colon stands, or the length of the text. */
  function Colon(s: string): (n: nat)
    ensures n <= |s|
    ensures n < |s| ==> s[n] == ':'
    ensures forall i | 0 <= i < n :: s[i] != ':'
  {
    if s == "" || s[0] == ':' then 0 else 1 + Colon(s[1..])
  }

  /** The components of an identifier, read from the front. */
  function Decode(s: string): Option<seq<string>>
    decreases |s|
  {
    if s == "" then Some([])
    else
      var n := Colon(s);
      if n == |s| || !AllDigits(s[..n]) then None
      else
        var len := DigitsValue(s[..n]);
        var rest := s[n + 1..];
        if len > |rest| then None
        else
          match Decode(rest[len..])
          case None => None
          case Some(more) => Some([rest[..len]] + more)
  }

  lemma DecodeOne(value: string, tail: string)
    ensures Decode(Component(value) + tail)
            == match Decode(tail) { case None => None case Some(more) => Some([value] + more) }
  {
    var s := Component(value) + tail;
    var d := Decimal(|value|);
    DecimalRoundTrip(|value|);
    assert s == d + (":" + value + tail);
    assert s[..|d|] == d && s[|d|] == ':';
    forall i | 0 <= i < |d| ensures s[i] != ':' {
      assert IsDigit(d[i]) && s[i] == d[i];
    }
    assert Colon(s) == |d|;
    var rest := s[|d| + 1..];
    assert rest == value + tail;
    assert rest[..|value|] == value && rest[|value|..] == tail;
  }

  /** Every identifier decodes to the command and the whole argument list. */
  lemma {:induction false} DecodeComponents(values: seq<string>)
    ensures Decode(Components(values)) == Some(values)
  {
    if values != [] {
      DecodeOne(values[0], Components(values[1..]));
      DecodeComponents(values[1..]);
      assert [values[0]] + values[1..] == values;
    }
  }

  /** Two commands share an identifier only when command and arguments are equal. */
  lemma IdsAreUnique(c1: string, args1: seq<string>, c2: string, args2: seq<string>)
    ensures Components([c1] + args1) == Components([c2] + args2) <==> c1 == c2 && args1 == args2
  {
    var l1, l2 := [c1] + args1, [c2] + args2;
    DecodeComponents(l1);
    DecodeComponents(l2);
    assert l1[0] == c1 && l1[1..] == args1 && l2[0] == c2 && l2[1..] == args2;
  }
}
