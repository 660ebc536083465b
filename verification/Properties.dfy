/**
 Property files. The operator writes "key=value" lines while it ranges over Go maps, so the
 text depends on an iteration order; reading the text back gives the maps whatever that order was.
 */
module Properties {
  import opened PrestoTypes

  // ---------------------------------------------------------------- writing

  function Line(key: string, value: string): string {
    key + "=" + value + "\n"
  }

  /** An order in which a range over the map may visit it. */
  ghost predicate Visits(order: seq<string>, props: map<string, string>) {
    && (forall k :: k in order <==> k in props)
    && (forall i, j :: 0 <= i < j < |order| ==> order[i] != order[j])
  }

  function Render(order: seq<string>, props: map<string, string>): string
    requires forall k :: k in order ==> k in props
  {
    if order == [] then "" else Line(order[0], props[order[0]]) + Render(order[1..], props)
  }

  lemma {:induction false} RenderOneMore(order: seq<string>, key: string, props: map<string, string>)
    requires forall k :: k in order + [key] ==> k in props
    ensures forall k :: k in order ==> k in props
    ensures Render(order + [key], props) == Render(order, props) + Line(key, props[key])
  {
    forall k | k in order
      ensures k in props
    {
      assert k in order + [key];
    }
    if order == [] {
      assert order + [key] == [key];
      assert Render([key], props) == Line(key, props[key]) + Render([], props);
    } else {
      assert (order + [key])[1..] == order[1..] + [key];
      RenderOneMore(order[1..], key, props);
    }
  }

  /** The text is one rendering of these properties. */
  ghost predicate Renders(text: string, props: map<string, string>) {
    exists order :: Visits(order, props) && text == Render(order, props)
  }

  /** The text is one rendering of the first properties followed by one of the second. */
  ghost predicate RendersBoth(text: string, first: map<string, string>, second: map<string, string>) {
    exists a, b :: Renders(a, first) && Renders(b, second) && text == a + b
  }

  /** A range over a map into a string builder. */
  method WriteAll(props: map<string, string>) returns (text: string)
    ensures Renders(text, props)
  {
    text := "";
    var rest := props.Keys;
    ghost var order: seq<string> := [];
    while rest != {}
      invariant rest <= props.Keys
      invariant forall k :: k in order <==> k in props && k !in rest
      invariant forall i, j :: 0 <= i < j < |order| ==> order[i] != order[j]
      invariant text == Render(order, props)
    {
      var k :| k in rest;
      text := text + Line(k, props[k]);
      RenderOneMore(order, k, props);
      rest, order := rest - {k}, order + [k];
    }
    assert Visits(order, props);
  }

  const SYSTEM_PROPERTY := Error(OtherReason, "%s is a system property. Cannot be specified as additional property")

  /** The two loops of coordinatorConfigPropsMap and workerConfigPropsMap. */
  method WriteConfig(system: map<string, string>, additional: map<string, string>) returns (r: Result<string, Error>)
    ensures r.Ok? <==> forall k :: k in additional ==> k !in system
    ensures r.Ok? ==> RendersBoth(r.value, system, additional)
    ensures r.Err? ==> r.error == SYSTEM_PROPERTY
  {
    var head := WriteAll(system);
    var tail := "";
    var rest := additional.Keys;
    ghost var order: seq<string> := [];
    while rest != {}
      invariant rest <= additional.Keys
      invariant forall k :: k in order <==> k in additional && k !in rest
      invariant forall k :: k in order ==> k !in system
      invariant forall i, j :: 0 <= i < j < |order| ==> order[i] != order[j]
      invariant tail == Render(order, additional)
    {
      var k :| k in rest;
      if k in system {
        return Err(SYSTEM_PROPERTY);
      }
      tail := tail + Line(k, additional[k]);
      RenderOneMore(order, k, additional);
      rest, order := rest - {k}, order + [k];
    }
    assert Visits(order, additional);
    assert Renders(tail, additional);
    return Ok(head + tail);
  }

  // ---------------------------------------------------------------- reading

  function IndexOf(s: string, c: char): (i: nat)
    ensures i <= |s| && c !in s[..i]
    ensures i < |s| ==> s[i] == c
  {
    if s == "" || s[0] == c then 0 else
      var i := IndexOf(s[1..], c);
      assert s[..i + 1] == [s[0]] + s[1..][..i];
      i + 1
  }

  lemma IndexOfFirst(a: string, c: char, b: string)
    requires c !in a
    ensures IndexOf(a + [c] + b, c) == |a|
  {
    var s := a + [c] + b;
    assert s[|a|] == c && s[..|a|] == a;
  }

  /** The pair on a line, split at the first '='; a blank line holds none. */
  function PairOn(line: string): map<string, string> {
    var e := IndexOf(line, '=');
    if line == "" then map[]
    else if e == |line| then map[line := ""]
    else map[line[..e] := line[e + 1..]]
  }

  /** The properties in a text, line by line, a later line winning. */
  function Parse(text: string): map<string, string>
    decreases |text|
  {
    var n := IndexOf(text, '\n');
    if n == |text| then PairOn(text) else PairOn(text[..n]) + Parse(text[n + 1..])
  }

  // ---------------------------------------------------------------- round trip

  /** The value without one newline at its end. */
  function Stripped(value: string): string {
    if value != "" && value[|value| - 1] == '\n' then value[..|value| - 1] else value
  }

  function StripAll(props: map<string, string>): map<string, string> {
    map k | k in props :: Stripped(props[k])
  }

  /** Keys that fit before the first '=' of a line, values that fit after it. */
  predicate Tame(props: map<string, string>) {
    && (forall k :: k in props ==> '=' !in k && '\n' !in k)
    && (forall k :: k in props ==> '\n' !in Stripped(props[k]))
  }

  lemma ParseFirstLine(line: string, rest: string)
    requires '\n' !in line
    ensures Parse(line + "\n" + rest) == PairOn(line) + Parse(rest)
  {
    IndexOfFirst(line, '\n', rest);
    var text := line + "\n" + rest;
    assert text[..|line|] == line && text[|line| + 1..] == rest;
  }

  lemma ParseOneLine(key: string, value: string, rest: string)
    requires '=' !in key && '\n' !in key && '\n' !in Stripped(value)
    ensures Parse(Line(key, value) + rest) == map[key := Stripped(value)] + Parse(rest)
  {
    hide Parse;
    var v := Stripped(value);
    var line := key + "=" + v;
    IndexOfFirst(key, '=', v);
    assert line[..|key|] == key && line[|key| + 1..] == v;
    assert PairOn(line) == map[key := v];
    if v == value {
      assert Line(key, value) + rest == line + "\n" + rest;
      ParseFirstLine(line, rest);
    } else {
      assert value == v + "\n";
      assert Line(key, value) + rest == line + "\n" + ("" + "\n" + rest);
      ParseFirstLine(line, "" + "\n" + rest);
      ParseFirstLine("", rest);
    }
  }

  /** The part of the properties an order visits. */
  function Visited(order: seq<string>, props: map<string, string>): map<string, string>
    requires forall k :: k in order ==> k in props
  {
    map k | k in order :: Stripped(props[k])
  }

  lemma VisitedFirst(order: seq<string>, props: map<string, string>)
    requires order != []
    requires forall k :: k in order ==> k in props
    ensures forall k :: k in order[1..] ==> k in props
    ensures Visited(order, props) == map[order[0] := Stripped(props[order[0]])] + Visited(order[1..], props)
  {
    assert order == [order[0]] + order[1..];
  }

  lemma {:induction false} ParseRendered(order: seq<string>, props: map<string, string>, rest: string)
    requires Tame(props)
    requires forall k :: k in order ==> k in props
    ensures Parse(Render(order, props) + rest) == Visited(order, props) + Parse(rest)
  {
    hide Parse, Line, Stripped;
    if order == [] {
      assert Render(order, props) + rest == rest;
    } else {
      var k := order[0];
      VisitedFirst(order, props);
      var more := Render(order[1..], props) + rest;
      assert Render(order, props) + rest == Line(k, props[k]) + more;
      ParseOneLine(k, props[k], more);
      ParseRendered(order[1..], props, rest);
    }
  }

  lemma ParseRenders(text: string, props: map<string, string>, rest: string)
    requires Renders(text, props) && Tame(props)
    ensures Parse(text + rest) == StripAll(props) + Parse(rest)
  {
    var order :| Visits(order, props) && text == Render(order, props);
    ParseRendered(order, props, rest);
    assert Visited(order, props) == StripAll(props);
  }

  lemma ParseNothing()
    ensures Parse("") == map[]
  {
  }

  /** Whatever the two iteration orders were, reading gives the union of both maps back. */
  lemma RoundTrip(text: string, system: map<string, string>, additional: map<string, string>)
    requires RendersBoth(text, system, additional) && Tame(system) && Tame(additional)
    ensures Parse(text) == StripAll(system) + StripAll(additional)
  {
    hide Parse, Render, Visits, Stripped;
    var a, b :| Renders(a, system) && Renders(b, additional) && text == a + b;
    ParseRenders(a, system, b);
    ParseRenders(b, additional, "");
    assert b + "" == b;
    ParseNothing();
  }
}
