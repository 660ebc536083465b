/**
 The worker's shutdown script finds its HTTP port by searching the rendered config.properties.
 For every iteration order it finds the port the worker listens on, exactly unless an additional
 property contributes text of its own to the search.
 */
module Shutdown {
  import opened PrestoTypes
  import opened Naming
  import opened Properties
  import opened Settings
  import opened Text

  // ---------------------------------------------------------------- the search

  /** grep's pattern 'http-server.http.port' at one place; each dot stands for any character. */
  predicate HitAt(s: string, i: nat) {
    && i + 21 <= |s|
    && s[i..i + 11] == "http-server" && s[i + 12..i + 16] == "http" && s[i + 17..i + 21] == "port"
  }

  predicate Hit(s: string) {
    exists i :: 0 <= i < |s| && HitAt(s, i)
  }

  /** What sed leaves of a line: the text after its last '=', or the line if it has none. */
  function LastPart(line: string): (r: string)
    ensures OneLine(line) ==> OneLine(r)
    ensures '=' !in r && |r| <= |line| && line[|line| - |r|..] == r
    ensures |r| < |line| ==> line[|line| - |r| - 1] == '='
  {
    var e := IndexOf(line, '=');
    if e == |line| then line else LastPart(line[e + 1..])
  }

  function FoundOn(line: string): seq<string> {
    if Hit(line) then [LastPart(line)] else []
  }

  /** The lines the search prints. */
  function Found(text: string): (lines: seq<string>)
    ensures forall i :: 0 <= i < |lines| ==> OneLine(lines[i])
    decreases |text|
  {
    var n := IndexOf(text, '\n');
    if n == |text| then FoundOn(text) else FoundOn(text[..n]) + Found(text[n + 1..])
  }

  function Joined(lines: seq<string>): string {
    if lines == [] then "" else lines[0] + "\n" + Joined(lines[1..])
  }

  /** A command substitution drops the newlines at the end of the output. */
  function Chomp(s: string): (r: string)
    ensures r <= s
  {
    if s != "" && s[|s| - 1] == '\n' then Chomp(s[..|s| - 1]) else s
  }

  /** The value the script gives to its http_port variable. */
  function PortFound(text: string): string {
    Chomp(Joined(Found(text)))
  }

  // ---------------------------------------------------------------- the search, line by line

  predicate Terminated(s: string) {
    s == "" || s[|s| - 1] == '\n'
  }

  lemma FoundFirst(line: string, more: string)
    requires OneLine(line)
    ensures Found(line + "\n" + more) == FoundOn(line) + Found(more)
  {
    hide FoundOn;
    IndexOfFirst(line, '\n', more);
    var text := line + "\n" + more;
    assert text[..|line|] == line && text[|line| + 1..] == more;
  }

  lemma {:induction false} FoundSplits(s: string, rest: string)
    requires Terminated(s)
    ensures Found(s + rest) == Found(s) + Found(rest)
    decreases |s|
  {
    hide Found, FoundOn;
    if s == "" {
      assert s + rest == rest;
      FoundNothing();
    } else {
      var n := IndexOf(s, '\n');
      var line, more := s[..n], s[n + 1..];
      assert s == line + "\n" + more;
      FoundFirst(line, more);
      FoundFirst(line, more + rest);
      FoundSplits(more, rest);
      assert s + rest == line + "\n" + (more + rest);
    }
  }

  lemma FoundNothing()
    ensures Found("") == []
  {
  }

  lemma {:induction false} NothingFound(s: string)
    requires !Hit(s)
    ensures Found(s) == []
    decreases |s|
  {
    hide LastPart, Hit;
    var n := IndexOf(s, '\n');
    if n < |s| {
      NoHitInside(s, 0, n);
      assert s[0..n] == s[..n];
      NoHitInside(s, n + 1, |s|);
      assert s[n + 1..|s|] == s[n + 1..];
      NothingFound(s[n + 1..]);
    }
  }

  lemma NoHitInside(s: string, from: nat, to: nat)
    requires from <= to <= |s| && !Hit(s)
    ensures !Hit(s[from..to])
  {
    forall i: nat | i < |s[from..to]| && HitAt(s[from..to], i)
      ensures HitAt(s, from + i)
    {
      HitInside(s, from, to, i);
    }
  }

  lemma HitInside(s: string, from: nat, to: nat, i: nat)
    requires from <= to <= |s| && HitAt(s[from..to], i)
    ensures HitAt(s, from + i)
  {
    SliceOfSlice(s, from, to, i, i + 11);
    SliceOfSlice(s, from, to, i + 12, i + 16);
    SliceOfSlice(s, from, to, i + 17, i + 21);
  }

  lemma SliceOfSlice(s: string, from: nat, to: nat, a: nat, b: nat)
    requires from <= to <= |s| && a <= b <= to - from
    ensures s[from..to][a..b] == s[from + a..from + b]
  {
    var part, left, right := s[from..to], s[from..to][a..b], s[from + a..from + b];
    assert forall k :: 0 <= k < b - a ==> left[k] == part[a + k] == s[from + a + k] == right[k];
  }

  lemma RenderTerminated(order: seq<string>, props: map<string, string>)
    requires forall k :: k in order ==> k in props
    ensures Terminated(Render(order, props))
  {
  }

  lemma FoundInRendered(order: seq<string>, props: map<string, string>)
    requires order != [] && forall k :: k in order ==> k in props
    ensures Found(Render(order, props)) == Found(Line(order[0], props[order[0]])) + Found(Render(order[1..], props))
  {
    FoundSplits(Line(order[0], props[order[0]]), Render(order[1..], props));
  }

  // ---------------------------------------------------------------- the system's part

  const WORKER_PORT := Decimal(PRESTO_PORT)

  lemma WorkerPortText()
    ensures WORKER_PORT == "8080"
  {
    assert Digits(8) == "8" && Digits(80) == "80" && Digits(808) == "808";
  }

  lemma PortLineHit()
    ensures LastPart(HTTP_PORT + "=" + "8080") == "8080" && Hit(HTTP_PORT + "=" + "8080")
  {
    PortKeysPlain();
    IndexOfFirst(HTTP_PORT, '=', "8080");
    assert (HTTP_PORT + "=" + "8080")[|HTTP_PORT| + 1..] == "8080";
    assert HitAt(HTTP_PORT + "=" + "8080", 0);
  }

  lemma PortLineFound()
    ensures Found(Line(HTTP_PORT, WORKER_PORT)) == [WORKER_PORT]
  {
    hide Found, PlainKey, Hit, LastPart, IndexOf;
    WorkerPortText();
    PortLineHit();
    var line := HTTP_PORT + "=" + "8080";
    assert OneLine(line);
    FoundFirst(line, "");
    FoundNothing();
    assert Line(HTTP_PORT, WORKER_PORT) == line + "\n" + "";
  }

  lemma RoleLineSilent()
    ensures Found(Line("coordinator", "false")) == []
  {
    assert !Hit(Line("coordinator", "false"));
    NothingFound(Line("coordinator", "false"));
  }

  // The discovery URI's line around the two copies of the shortened UUID.
  const BEFORE := "discovery.uri=http://coordinatorcontainer-"
  const BETWEEN := ".pod-discovery-"

  lemma LettersBefore(i: nat)
    requires i < |BEFORE|
    ensures |BEFORE| == 42
    ensures BEFORE[i] == 'h' ==> i == 14
    ensures BEFORE[i] == 'v' ==> i == 5
  {
  }

  lemma LettersBetween(i: nat)
    requires i < |BETWEEN|
    ensures |BETWEEN| == 15
    ensures BETWEEN[i] != 'h'
    ensures BETWEEN[i] == 'v' ==> i == 10
  {
  }

  /** No UUID makes the discovery URI look like the port's line: 'h' and, eight on, 'v' never fall together. */
  lemma DiscoveryNoHit(short: string, port: string, i: nat)
    requires |short| == 8 && forall j :: 0 <= j < |port| ==> port[j] == '-' || '0' <= port[j] <= '9'
    ensures !HitAt(BEFORE + short + BETWEEN + short + ":" + port + "\n", i)
  {
    var s := BEFORE + short + BETWEEN + short + ":" + port + "\n";
    if HitAt(s, i) {
      assert s[i] == s[i..i + 11][0] == 'h';
      assert s[i + 8] == s[i..i + 11][8] == 'v';
      LettersBefore(0);
      LettersBetween(0);
      if i < 42 {
        LettersBefore(i);
        LettersBefore(22);
        assert false;
      } else if i < 50 {
        LettersBetween(i + 8 - 50);
        assert false;
      } else if i < 65 {
        LettersBetween(i - 50);
        assert false;
      }
    }
  }

  lemma Regroup(key: string, scheme: string, host: string, short: string, domain: string, port: string)
    ensures Line(key, scheme + (host + short + "." + (domain + short)) + ":" + port)
         == (key + "=" + scheme + host) + short + ("." + domain) + short + ":" + port + "\n"
  {
  }

  lemma DiscoveryLine(u: string, spec: PrestoSpec)
    requires Sliceable(u)
    ensures Line(DISCOVERY_URI, CoordinatorUri(u, spec))
         == BEFORE + Short(u) + BETWEEN + Short(u) + ":" + Decimal(HttpPorts(spec).0) + "\n"
  {
    hide Decimal, HttpPorts;
    Regroup(DISCOVERY_URI, "http://", "coordinatorcontainer-", Short(u), "pod-discovery-", Decimal(HttpPorts(spec).0));
    assert BEFORE == DISCOVERY_URI + "=" + "http://" + "coordinatorcontainer-" && BETWEEN == "." + "pod-discovery-";
  }

  lemma DiscoveryLineSilent(u: string, spec: PrestoSpec)
    requires Sliceable(u)
    ensures Found(Line(DISCOVERY_URI, CoordinatorUri(u, spec))) == []
  {
    hide Found, Decimal, HitAt, Line, CoordinatorUri;
    var port := Decimal(HttpPorts(spec).0);
    var s := BEFORE + Short(u) + BETWEEN + Short(u) + ":" + port + "\n";
    DiscoveryLine(u, spec);
    forall i: nat | i < |s|
      ensures !HitAt(s, i)
    {
      DiscoveryNoHit(Short(u), port, i);
    }
    NothingFound(s);
  }

  lemma {:induction false} FoundInSystem(order: seq<string>, u: string, spec: PrestoSpec)
    requires Sliceable(u) && forall k :: k in order ==> k in WorkerProps(u, spec)
    requires forall i, j :: 0 <= i < j < |order| ==> order[i] != order[j]
    ensures Found(Render(order, WorkerProps(u, spec))) == if HTTP_PORT in order then [WORKER_PORT] else []
  {
    hide Found, Line, CoordinatorUri, Decimal;
    if order == [] {
      FoundNothing();
    } else {
      FoundInRendered(order, WorkerProps(u, spec));
      FoundInSystem(order[1..], u, spec);
      RoleLineSilent();
      PortLineFound();
      DiscoveryLineSilent(u, spec);
    }
  }

  // ---------------------------------------------------------------- the user's part

  /** The text adds nothing but empty lines to what the search prints. */
  predicate Silent(text: string) {
    forall i :: 0 <= i < |Found(text)| ==> Found(text)[i] == ""
  }

  /** No additional property puts text of its own into the search. */
  predicate SilentProps(props: map<string, string>) {
    forall k :: k in props ==> Silent(Line(k, props[k]))
  }

  lemma {:induction false} SilentIffLines(order: seq<string>, props: map<string, string>)
    requires forall k :: k in order ==> k in props
    ensures Silent(Render(order, props)) <==> forall k :: k in order ==> Silent(Line(k, props[k]))
  {
    hide Found, Line;
    if order == [] {
      FoundNothing();
    } else {
      var first, more := Line(order[0], props[order[0]]), Render(order[1..], props);
      FoundInRendered(order, props);
      SilentIffLines(order[1..], props);
      SilentIffBoth(Render(order, props), first, more);
      assert order == [order[0]] + order[1..];
    }
  }

  lemma SilentIffBoth(all: string, first: string, more: string)
    requires Found(all) == Found(first) + Found(more)
    ensures Silent(all) <==> Silent(first) && Silent(more)
  {
    hide Found;
    if Silent(all) {
      assert forall i :: 0 <= i < |Found(first)| ==> Found(first)[i] == Found(all)[i];
      assert forall i :: 0 <= i < |Found(more)| ==> Found(more)[i] == Found(all)[|Found(first)| + i];
    }
  }

  // ---------------------------------------------------------------- the captured output

  lemma {:induction false} ChompNewlines(s: string, tail: string)
    requires s != "" && s[|s| - 1] != '\n' && forall i :: 0 <= i < |tail| ==> tail[i] == '\n'
    ensures Chomp(s + tail) == s
    decreases |tail|
  {
    if tail == "" {
      assert s + tail == s;
    } else {
      assert (s + tail)[..|s + tail| - 1] == s + tail[..|tail| - 1];
      ChompNewlines(s, tail[..|tail| - 1]);
    }
  }

  lemma {:induction false} ChompKeeps(s: string, i: nat)
    requires i < |s| && s[i] != '\n'
    ensures |Chomp(s)| > i
    decreases |s|
  {
    if s[|s| - 1] == '\n' {
      ChompKeeps(s[..|s| - 1], i);
    }
  }

  lemma {:induction false} JoinedBlank(lines: seq<string>)
    requires forall i :: 0 <= i < |lines| ==> lines[i] == ""
    ensures forall i :: 0 <= i < |Joined(lines)| ==> Joined(lines)[i] == '\n'
  {
    if lines != [] {
      JoinedBlank(lines[1..]);
    }
  }

  lemma {:induction false} JoinedHolds(lines: seq<string>, j: nat) returns (i: nat)
    requires j < |lines| && lines[j] != "" && OneLine(lines[j])
    ensures i < |Joined(lines)| && Joined(lines)[i] != '\n'
  {
    if j == 0 {
      i := 0;
      assert Joined(lines)[0] == lines[0][0];
    } else {
      i := JoinedHolds(lines[1..], j - 1);
      assert Joined(lines) == (lines[0] + "\n") + Joined(lines[1..]);
      i := i + |lines[0]| + 1;
    }
  }

  lemma JoinedFirst(first: string, more: seq<string>)
    ensures Joined([first] + more) == first + ("\n" + Joined(more))
  {
    assert ([first] + more)[1..] == more;
  }

  lemma CapturedMore(first: string, more: seq<string>, j: nat)
    requires j < |more| && more[j] != "" && OneLine(more[j])
    ensures |Chomp(Joined([first] + more))| > |first|
  {
    hide Joined, Chomp;
    JoinedFirst(first, more);
    var i := JoinedHolds(more, j);
    var out := first + ("\n" + Joined(more));
    assert out[|first| + 1 + i] == Joined(more)[i];
    ChompKeeps(out, |first| + 1 + i);
  }

  /** A first line comes out alone exactly if all that follows is blank. */
  lemma CapturedAlone(first: string, more: seq<string>)
    requires first != "" && OneLine(first) && forall i :: 0 <= i < |more| ==> OneLine(more[i])
    ensures Chomp(Joined([first] + more)) == first <==> forall i :: 0 <= i < |more| ==> more[i] == ""
  {
    hide Joined, Chomp;
    if j :| 0 <= j < |more| && more[j] != "" {
      CapturedMore(first, more, j);
    } else {
      JoinedFirst(first, more);
      JoinedBlank(more);
      ChompNewlines(first, "\n" + Joined(more));
    }
  }

  // ---------------------------------------------------------------- agreement

  /** For every iteration order, the script reads the worker's port exactly if the user's properties are silent. */
  lemma PortFoundIff(text: string, u: string, spec: PrestoSpec)
    requires Sliceable(u) && RendersBoth(text, WorkerProps(u, spec), spec.worker.additionalProps)
    ensures PortFound(text) == WorkerProps(u, spec)[HTTP_PORT] <==> SilentProps(spec.worker.additionalProps)
  {
    hide Found, Line, Render, Joined, Chomp, CoordinatorUri, Decimal;
    var props, more := WorkerProps(u, spec), spec.worker.additionalProps;
    var a, b :| Renders(a, props) && Renders(b, more) && text == a + b;
    var first :| Visits(first, props) && a == Render(first, props);
    var second :| Visits(second, more) && b == Render(second, more);
    RenderTerminated(first, props);
    FoundSplits(a, b);
    FoundInSystem(first, u, spec);
    SilentIffLines(second, more);
    WorkerPortText();
    CapturedAlone(WORKER_PORT, Found(b));
  }

  /** The same for the file in the worker's configuration map, which the user may have replaced. */
  lemma ScriptFindsPortIff(r: Result<map<string, string>, Error>, u: string, spec: PrestoSpec, lib: Library)
    requires Sliceable(u) && Built(r, false, u, spec, lib) && r.Ok?
    ensures CONFIG_FILE in r.value
    ensures PortFound(r.value[CONFIG_FILE]) == WorkerProps(u, spec)[HTTP_PORT]
       <==> if CONFIG_FILE in spec.propFiles then PortFound(spec.propFiles[CONFIG_FILE]) == WORKER_PORT
            else SilentProps(spec.worker.additionalProps)
  {
    hide PortFound, SilentProps, Files, Decimal, CoordinatorUri;
    var memory := lib.parse(MemoryFor(false, spec)).value;
    var text :| RendersBoth(text, WorkerProps(u, spec), spec.worker.additionalProps)
      && r.value == Files(false, text, memory, spec, lib);
    FilesHoldText(false, text, memory, spec, lib);
    PortFoundIff(text, u, spec);
  }

  /** Properties none of whose lines the pattern hits are silent. */
  lemma UnmatchedIsSilent(props: map<string, string>)
    requires forall k :: k in props ==> !Hit(Line(k, props[k]))
    ensures SilentProps(props)
  {
    forall k | k in props
      ensures Silent(Line(k, props[k]))
    {
      NothingFound(Line(k, props[k]));
    }
  }

  // ---------------------------------------------------------------- what spoils the search

  /** The pattern written out: its words in order, with one character of any kind between them. */
  ghost predicate Spells(s: string) {
    exists before: string, x: char, y: char, after: string ::
      s == before + "http-server" + [x] + "http" + [y] + "port" + after
  }

  lemma HitIffSpelled(s: string)
    ensures Hit(s) <==> Spells(s)
  {
    if i :| 0 <= i < |s| && HitAt(s, i) {
      assert s == s[..i] + "http-server" + [s[i + 11]] + "http" + [s[i + 16]] + "port" + s[i + 21..];
    }
    if before: string, x: char, y: char, after: string
      :| s == before + "http-server" + [x] + "http" + [y] + "port" + after {
      SpelledHit(before, x, y, after);
    }
  }

  lemma SpelledHit(before: string, x: char, y: char, after: string)
    ensures Hit(before + "http-server" + [x] + "http" + [y] + "port" + after)
  {
    var s, i := before + "http-server" + [x] + "http" + [y] + "port" + after, |before|;
    assert s[i..i + 11] == "http-server" && s[i + 12..i + 16] == "http" && s[i + 17..i + 21] == "port";
    assert HitAt(s, i);
  }

  /**
   A one-line property spoils the search exactly if its line spells the pattern and its value is
   neither empty nor ends in '='.
   */
  lemma LoudIff(k: string, v: string)
    requires OneLine(k) && OneLine(v)
    ensures !Silent(Line(k, v)) <==> Spells(k + "=" + v) && v != "" && v[|v| - 1] != '='
  {
    hide Found, Hit, Spells, LastPart;
    var line := k + "=" + v;
    HitIffSpelled(line);
    FoundFirst(line, "");
    FoundNothing();
    assert Line(k, v) == line + "\n" + "";
    assert Found(Line(k, v)) == FoundOn(line);
    assert LastPart(line) == "" <==> line[|line| - 1] == '=';
    assert line[|line| - 1] == if v == "" then '=' else v[|v| - 1];
    assert |FoundOn(line)| == 1 ==> FoundOn(line)[0] == LastPart(line);
    assert |FoundOn(line)| == 1 <==> Hit(line);
  }

  /** A property that is no system property and still spoils the search. */
  lemma LoudProperty(u: string, spec: PrestoSpec)
    requires Sliceable(u)
    ensures "x" + HTTP_PORT !in WorkerProps(u, spec)
    ensures !SilentProps(map["x" + HTTP_PORT := "9"])
  {
    hide Silent, Line, CoordinatorUri, Decimal;
    var key, props := "x" + HTTP_PORT, map["x" + HTTP_PORT := "9"];
    assert key + "=" + "9" == "x" + "http-server" + ['.'] + "http" + ['.'] + "port" + "=9";
    PortKeysPlain();
    LoudIff(key, "9");
    assert key in props && !Silent(Line(key, props[key]));
  }
}
