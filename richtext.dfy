/** `src/components/RichText.tsx`: turning the segments of a post's text into rendered nodes.
    Links and mentions become anchors, plain text becomes its lines with a line break between
    consecutive lines, and every anchor and break takes the next value of a key counter.

    How the text is cut into segments by its facets is the rich-text library's business; the
    model starts from the segments. */
module RichText {

  /** One segment as the library yields it: a link with its target, a mention with the
      mentioned account's DID, or plain text. */
  datatype Segment =
    | LinkSegment(text: string, uri: string)
    | MentionSegment(text: string, did: string)
    | PlainSegment(text: string)

  /** A rendered node: an anchor or a line break, each keyed, or an unkeyed run of text. */
  datatype Node = Anchor(key: nat, href: string, text: string) | Break(key: nat) | Text(text: string)

  /** Where a mention links to, under the web app's base URL. */
  function MentionHref(webApp: string, did: string): string {
    webApp + "/profile/" + did
  }

  // ---------------------------------------------------------------------------------------
  // Splitting on newlines

  /** `s.split('\n')`: the pieces between newlines, in order; there is always at least one, and
      a newline at either end gives an empty piece there. */
  function Split(s: string): (r: seq<string>)
    ensures |r| >= 1
    decreases |s|
  {
    if s == [] then [""]
    else
      var rest := Split(s[1..]);
      if s[0] == '\n' then [""] + rest else [[s[0]] + rest[0]] + rest[1..]
  }

  /** The pieces glued back together with a newline between consecutive ones. */
  function Join(runs: seq<string>): string
    requires |runs| >= 1
    decreases |runs|
  {
    if |runs| == 1 then runs[0] else runs[0] + "\n" + Join(runs[1..])
  }

  function NewlineCount(s: string): nat
    decreases |s|
  {
    if s == [] then 0 else (if s[0] == '\n' then 1 else 0) + NewlineCount(s[1..])
  }

  /** Joining the pieces with newlines gives back the text. */
  lemma {:induction false} JoinSplit(s: string)
    ensures Join(Split(s)) == s
    decreases |s|
  {
    if s != [] {
      var rest := Split(s[1..]);
      JoinSplit(s[1..]);
      if s[0] == '\n' {
        assert ([""] + rest)[1..] == rest;
      } else if |rest| == 1 {
        assert Split(s) == [[s[0]] + rest[0]];
      } else {
        var r := [[s[0]] + rest[0]] + rest[1..];
        assert r[1..] == rest[1..];
        assert Join(rest) == rest[0] + "\n" + Join(rest[1..]);
      }
    }
  }

  /** There is one more piece than there are newlines, and no piece holds a newline. */
  lemma {:induction false} SplitShape(s: string)
    ensures |Split(s)| == NewlineCount(s) + 1
    ensures forall i :: 0 <= i < |Split(s)| ==> '\n' !in Split(s)[i]
    decreases |s|
  {
    if s != [] {
      SplitShape(s[1..]);
      var rest := Split(s[1..]);
      if s[0] != '\n' {
        var r := Split(s);
        forall i | 0 <= i < |r| ensures '\n' !in r[i] {
          if i > 0 {
            assert r[i] == rest[i];
          } else {
            assert r[0] == [s[0]] + rest[0];
          }
        }
      } else {
        var r := Split(s);
        forall i | 0 <= i < |r| ensures '\n' !in r[i] {
          if i > 0 {
            assert r[i] == rest[i - 1];
          }
        }
      }
    }
  }

  /** Splitting a text whose first piece is `r`. */
  lemma {:induction false} SplitAfterPiece(r: string, t: string)
    requires '\n' !in r
    ensures Split(r + t) == [r + Split(t)[0]] + Split(t)[1..]
    decreases |r|
  {
    if r != [] {
      assert (r + t)[1..] == r[1..] + t;
      SplitAfterPiece(r[1..], t);
      assert [r[0]] + (r[1..] + Split(t)[0]) == r + Split(t)[0];
    } else {
      assert r + t == t;
      assert r + Split(t)[0] == Split(t)[0];
      assert Split(t) == [Split(t)[0]] + Split(t)[1..];
    }
  }

  /** The other direction: pieces without newlines come back from splitting their join. */
  lemma {:induction false} SplitJoin(runs: seq<string>)
    requires |runs| >= 1
    requires forall i :: 0 <= i < |runs| ==> '\n' !in runs[i]
    ensures Split(Join(runs)) == runs
    decreases |runs|
  {
    if |runs| == 1 {
      SplitAfterPiece(runs[0], "");
      assert runs[0] + "" == runs[0];
    } else {
      var u := Join(runs[1..]);
      SplitJoin(runs[1..]);
      SplitAfterPiece(runs[0], "\n" + u);
      assert ("\n" + u)[1..] == u;
      assert runs[0] + "\n" + u == runs[0] + ("\n" + u);
      assert Split("\n" + u) == [""] + runs[1..];
      assert runs[0] + "" == runs[0];
    }
  }

  // ---------------------------------------------------------------------------------------
  // The nodes, as a specification

  /** The nodes for the lines of a plain segment, keys starting at `key`: each line as text,
      preceded by a break when it is not the first. */
  function RunNodes(runs: seq<string>, key: nat): seq<Node>
    decreases |runs|
  {
    if runs == [] then []
    else
      RunNodes(runs[..|runs| - 1], key)
      + (if |runs| > 1 then [Break(key + |runs| - 2)] else [])
      + [Text(runs[|runs| - 1])]
  }

  /** How many keys a segment uses. */
  function SegmentKeys(segment: Segment): nat {
    match segment
    case PlainSegment(text) => |Split(text)| - 1
    case _ => 1
  }

  /** The nodes for one segment, keys starting at `key`. */
  function SegmentNodes(segment: Segment, webApp: string, key: nat): seq<Node> {
    match segment
    case LinkSegment(text, uri) => [Anchor(key, uri, text)]
    case MentionSegment(text, did) => [Anchor(key, MentionHref(webApp, did), text)]
    case PlainSegment(text) => RunNodes(Split(text), key)
  }

  /** How many keys the segments use. */
  function KeyCount(segments: seq<Segment>): nat
    decreases |segments|
  {
    if segments == [] then 0
    else KeyCount(segments[..|segments| - 1]) + SegmentKeys(segments[|segments| - 1])
  }

  /** The nodes for the segments, keys starting at `key`: each segment's nodes in turn, the key
      counter carried from one to the next. */
  function Nodes(segments: seq<Segment>, webApp: string, key: nat): seq<Node>
    decreases |segments|
  {
    if segments == [] then []
    else
      var init := segments[..|segments| - 1];
      Nodes(init, webApp, key) + SegmentNodes(segments[|segments| - 1], webApp, key + KeyCount(init))
  }

  // ---------------------------------------------------------------------------------------
  // The loop

  /** The component's loop over the segments, with the `key` counter that anchors and breaks
      share. */
  method Render(segments: seq<Segment>, webApp: string) returns (nodes: seq<Node>)
    ensures nodes == Nodes(segments, webApp, 0)
  {
    nodes := [];
    var key: nat := 0;
    for s := 0 to |segments|
      invariant nodes == Nodes(segments[..s], webApp, 0)
      invariant key == KeyCount(segments[..s])
    {
      PrefixStep(segments, webApp, s);
      match segments[s] {
        case LinkSegment(text, uri) =>
          nodes := nodes + [Anchor(key, uri, text)];
          key := key + 1;
        case MentionSegment(text, did) =>
          nodes := nodes + [Anchor(key, webApp + "/profile/" + did, text)];
          key := key + 1;
        case PlainSegment(text) =>
          nodes, key := RenderLines(nodes, Split(text), key);
      }
    }
    assert segments[..|segments|] == segments;
  }

  /** The inner loop over a plain segment's lines: a break before every line but the first,
      then the line itself. */
  method RenderLines(nodes: seq<Node>, runs: seq<string>, first: nat) returns (after: seq<Node>, key: nat)
    requires |runs| >= 1
    ensures after == nodes + RunNodes(runs, first)
    ensures key == first + |runs| - 1
  {
    after, key := nodes, first;
    for i := 0 to |runs|
      invariant after == nodes + RunNodes(runs[..i], first)
      invariant key == first + (if i == 0 then 0 else i - 1)
    {
      if i > 0 {
        after := after + [Break(key)];
        key := key + 1;
      }
      after := after + [Text(runs[i])];
      assert runs[..i + 1][..i] == runs[..i];
    }
    assert runs[..|runs|] == runs;
  }

  /** One more segment extends the nodes by that segment's nodes, keyed from the count so far. */
  lemma PrefixStep(segments: seq<Segment>, webApp: string, s: nat)
    requires s < |segments|
    ensures Nodes(segments[..s + 1], webApp, 0)
      == Nodes(segments[..s], webApp, 0) + SegmentNodes(segments[s], webApp, KeyCount(segments[..s]))
    ensures KeyCount(segments[..s + 1]) == KeyCount(segments[..s]) + SegmentKeys(segments[s])
  {
    assert segments[..s + 1][..s] == segments[..s];
  }

  // ---------------------------------------------------------------------------------------
  // Properties of the nodes

  /** The keys of the keyed nodes (anchors and breaks), in node order. */
  function Keys(nodes: seq<Node>): seq<nat>
    decreases |nodes|
  {
    if nodes == [] then [] else (if nodes[0].Text? then [] else [nodes[0].key]) + Keys(nodes[1..])
  }

  lemma {:induction false} KeysAppend(a: seq<Node>, b: seq<Node>)
    ensures Keys(a + b) == Keys(a) + Keys(b)
    decreases |a|
  {
    if a != [] {
      assert (a + b)[1..] == a[1..] + b;
      KeysAppend(a[1..], b);
    } else {
      assert a + b == b;
    }
  }

  /** `count` consecutive numbers from `start`. */
  function Range(start: nat, count: nat): (r: seq<nat>)
    ensures |r| == count && forall i :: 0 <= i < count ==> r[i] == start + i
  {
    seq(count, i requires 0 <= i < count => start + i)
  }

  lemma RangeAppend(start: nat, m: nat, n: nat)
    ensures Range(start, m) + Range(start + m, n) == Range(start, m + n)
  {
    var joined := Range(start, m) + Range(start + m, n);
    forall i | 0 <= i < m + n
      ensures joined[i] == start + i
    {
      if i >= m {
        assert joined[i] == Range(start + m, n)[i - m];
      }
    }
  }

  lemma {:induction false} RunKeys(runs: seq<string>, key: nat)
    requires |runs| >= 1
    ensures Keys(RunNodes(runs, key)) == Range(key, |runs| - 1)
    decreases |runs|
  {
    var init := runs[..|runs| - 1];
    var last := [Text(runs[|runs| - 1])];
    assert Keys(last) == [];
    if |runs| == 1 {
      assert RunNodes(runs, key) == last;
    } else {
      RunKeys(init, key);
      var mid: seq<Node> := [Break(key + |runs| - 2)];
      KeysAppend(RunNodes(init, key), mid);
      KeysAppend(RunNodes(init, key) + mid, last);
      assert Keys(mid) == [key + |runs| - 2];
      RangeAppend(key, |runs| - 2, 1);
    }
  }

  lemma SegmentKeysRange(segment: Segment, webApp: string, key: nat)
    ensures Keys(SegmentNodes(segment, webApp, key)) == Range(key, SegmentKeys(segment))
  {
    if segment.PlainSegment? {
      RunKeys(Split(segment.text), key);
    } else {
      assert Keys(SegmentNodes(segment, webApp, key)) == [key];
    }
  }

  /** The keyed nodes use the keys `key`, `key + 1`, … in order, one each, and as many as the
      counter ends up counting. */
  lemma {:induction false} KeysAreConsecutive(segments: seq<Segment>, webApp: string, key: nat)
    ensures Keys(Nodes(segments, webApp, key)) == Range(key, KeyCount(segments))
    decreases |segments|
  {
    if segments != [] {
      var init := segments[..|segments| - 1];
      var segment := segments[|segments| - 1];
      var start := key + KeyCount(init);
      var before := Nodes(init, webApp, key);
      var added := SegmentNodes(segment, webApp, start);
      assert Nodes(segments, webApp, key) == before + added;
      assert KeyCount(segments) == KeyCount(init) + SegmentKeys(segment);
      KeysAreConsecutive(init, webApp, key);
      KeysAppend(before, added);
      SegmentKeysRange(segment, webApp, start);
      RangeAppend(key, KeyCount(init), SegmentKeys(segment));
      calc {
        Keys(Nodes(segments, webApp, key));
        Keys(before) + Keys(added);
        Range(key, KeyCount(init)) + Range(start, SegmentKeys(segment));
        Range(key, KeyCount(segments));
      }
    }
  }

  /** So no two keyed nodes share a key: the keys strictly increase. */
  lemma KeysAreDistinct(segments: seq<Segment>, webApp: string)
    ensures var keys := Keys(Nodes(segments, webApp, 0));
      forall i, j :: 0 <= i < j < |keys| ==> keys[i] < keys[j]
  {
    KeysAreConsecutive(segments, webApp, 0);
  }

  /** The rendered text: anchors and runs show their text, a break shows as a newline. */
  function Visible(nodes: seq<Node>): string
    decreases |nodes|
  {
    if nodes == [] then ""
    else (if nodes[0].Break? then "\n" else nodes[0].text) + Visible(nodes[1..])
  }

  lemma {:induction false} VisibleAppend(a: seq<Node>, b: seq<Node>)
    ensures Visible(a + b) == Visible(a) + Visible(b)
    decreases |a|
  {
    if a != [] {
      assert (a + b)[1..] == a[1..] + b;
      VisibleAppend(a[1..], b);
    } else {
      assert a + b == b;
    }
  }

  lemma {:induction false} JoinSnoc(runs: seq<string>, last: string)
    requires |runs| >= 1
    ensures Join(runs + [last]) == Join(runs) + "\n" + last
    decreases |runs|
  {
    if |runs| == 1 {
      assert (runs + [last])[1..] == [last];
    } else {
      assert (runs + [last])[1..] == runs[1..] + [last];
      JoinSnoc(runs[1..], last);
    }
  }

  lemma {:induction false} RunVisible(runs: seq<string>, key: nat)
    requires |runs| >= 1
    ensures Visible(RunNodes(runs, key)) == Join(runs)
    decreases |runs|
  {
    var init := runs[..|runs| - 1];
    var last := runs[|runs| - 1];
    assert Visible([Text(last)]) == last;
    if |runs| == 1 {
      assert RunNodes(runs, key) == [Text(last)];
    } else {
      RunVisible(init, key);
      var mid: seq<Node> := [Break(key + |runs| - 2)];
      VisibleAppend(RunNodes(init, key), mid);
      VisibleAppend(RunNodes(init, key) + mid, [Text(last)]);
      assert Visible(mid) == "\n";
      assert init + [last] == runs;
      JoinSnoc(init, last);
    }
  }

  /** The segments' texts, one after another. */
  function SegmentsText(segments: seq<Segment>): string
    decreases |segments|
  {
    if segments == [] then "" else SegmentsText(segments[..|segments| - 1]) + segments[|segments| - 1].text
  }

  /** Rendering loses and adds no text: read back with a newline for each break, the nodes spell
      exactly the segments' texts in order. */
  lemma {:induction false} RenderKeepsText(segments: seq<Segment>, webApp: string, key: nat)
    ensures Visible(Nodes(segments, webApp, key)) == SegmentsText(segments)
    decreases |segments|
  {
    if segments != [] {
      var init := segments[..|segments| - 1];
      var segment := segments[|segments| - 1];
      var start := key + KeyCount(init);
      RenderKeepsText(init, webApp, key);
      VisibleAppend(Nodes(init, webApp, key), SegmentNodes(segment, webApp, start));
      if segment.PlainSegment? {
        RunVisible(Split(segment.text), start);
        JoinSplit(segment.text);
      } else {
        assert Visible(SegmentNodes(segment, webApp, start)) == segment.text;
      }
    }
  }

  /** The targets of the anchors, in node order. */
  function Hrefs(nodes: seq<Node>): seq<string>
    decreases |nodes|
  {
    if nodes == [] then [] else (if nodes[0].Anchor? then [nodes[0].href] else []) + Hrefs(nodes[1..])
  }

  lemma {:induction false} HrefsAppend(a: seq<Node>, b: seq<Node>)
    ensures Hrefs(a + b) == Hrefs(a) + Hrefs(b)
    decreases |a|
  {
    if a != [] {
      assert (a + b)[1..] == a[1..] + b;
      HrefsAppend(a[1..], b);
    } else {
      assert a + b == b;
    }
  }

  /** Where the link and mention segments point, in segment order; plain text points nowhere. */
  function LinkTargets(segments: seq<Segment>, webApp: string): seq<string>
    decreases |segments|
  {
    if segments == [] then []
    else
      LinkTargets(segments[..|segments| - 1], webApp)
      + match segments[|segments| - 1]
        case LinkSegment(_, uri) => [uri]
        case MentionSegment(_, did) => [MentionHref(webApp, did)]
        case PlainSegment(_) => []
  }

  lemma {:induction false} RunHrefs(runs: seq<string>, key: nat)
    ensures Hrefs(RunNodes(runs, key)) == []
    decreases |runs|
  {
    if runs != [] {
      var init := runs[..|runs| - 1];
      var mid: seq<Node> := if |runs| > 1 then [Break(key + |runs| - 2)] else [];
      var last: seq<Node> := [Text(runs[|runs| - 1])];
      RunHrefs(init, key);
      HrefsAppend(RunNodes(init, key), mid);
      HrefsAppend(RunNodes(init, key) + mid, last);
      assert Hrefs(mid) == [] && Hrefs(last) == [];
    }
  }

  /** Exactly one anchor per link or mention segment, in segment order: a link's anchor points
      at the link's target, a mention's at the account's profile page; plain text makes none. */
  lemma {:induction false} AnchorsFollowLinks(segments: seq<Segment>, webApp: string, key: nat)
    ensures Hrefs(Nodes(segments, webApp, key)) == LinkTargets(segments, webApp)
    decreases |segments|
  {
    if segments != [] {
      var init := segments[..|segments| - 1];
      var segment := segments[|segments| - 1];
      var start := key + KeyCount(init);
      AnchorsFollowLinks(init, webApp, key);
      HrefsAppend(Nodes(init, webApp, key), SegmentNodes(segment, webApp, start));
      if segment.PlainSegment? {
        RunHrefs(Split(segment.text), start);
      } else {
        assert Hrefs(SegmentNodes(segment, webApp, start)) == [SegmentNodes(segment, webApp, start)[0].href];
      }
    }
  }

  /** The texts of the unkeyed runs, in node order, and the number of breaks. */
  function Runs(nodes: seq<Node>): seq<string>
    decreases |nodes|
  {
    if nodes == [] then [] else (if nodes[0].Text? then [nodes[0].text] else []) + Runs(nodes[1..])
  }

  function BreakCount(nodes: seq<Node>): nat
    decreases |nodes|
  {
    if nodes == [] then 0 else (if nodes[0].Break? then 1 else 0) + BreakCount(nodes[1..])
  }

  lemma {:induction false} RunsAppend(a: seq<Node>, b: seq<Node>)
    ensures Runs(a + b) == Runs(a) + Runs(b)
    ensures BreakCount(a + b) == BreakCount(a) + BreakCount(b)
    decreases |a|
  {
    if a != [] {
      assert (a + b)[1..] == a[1..] + b;
      RunsAppend(a[1..], b);
    } else {
      assert a + b == b;
    }
  }

  lemma {:induction false} RunNodesShape(runs: seq<string>, key: nat)
    requires |runs| >= 1
    ensures Runs(RunNodes(runs, key)) == runs
    ensures BreakCount(RunNodes(runs, key)) == |runs| - 1
    decreases |runs|
  {
    var init := runs[..|runs| - 1];
    var last: seq<Node> := [Text(runs[|runs| - 1])];
    assert Runs(last) == [runs[|runs| - 1]] && BreakCount(last) == 0;
    if |runs| == 1 {
      assert RunNodes(runs, key) == last;
    } else {
      var mid: seq<Node> := [Break(key + |runs| - 2)];
      RunNodesShape(init, key);
      RunsAppend(RunNodes(init, key), mid);
      RunsAppend(RunNodes(init, key) + mid, last);
      assert Runs(mid) == [] && BreakCount(mid) == 1;
      assert init + [runs[|runs| - 1]] == runs;
    }
  }

  /** A plain segment renders as its lines, in order, with one break per newline: the runs
      joined by newlines give back the segment's text, and a text without a newline renders
      as that one text node alone. */
  lemma PlainSegmentRendering(text: string, webApp: string, key: nat)
    ensures var nodes := SegmentNodes(PlainSegment(text), webApp, key);
      && Runs(nodes) == Split(text)
      && Join(Runs(nodes)) == text
      && BreakCount(nodes) == NewlineCount(text)
      && (NewlineCount(text) == 0 ==> nodes == [Text(text)])
  {
    RunNodesShape(Split(text), key);
    SplitShape(text);
    JoinSplit(text);
    if NewlineCount(text) == 0 {
      assert Split(text) == [text] by {
        assert |Split(text)| == 1;
        assert Join(Split(text)) == Split(text)[0];
      }
      assert Split(text)[..0] == [];
    }
  }
}
