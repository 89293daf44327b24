/** The post-processing half of `create_slide_title`: the model's reply is
    split on '.', every piece is stripped of surrounding whitespace, and the
    pieces left blank are dropped. The remote chat call that produces the
    reply belongs to the deck module, where it is a parameter. */
module Titles {
  import opened Text

  /** The character the reply is split on. */
  const Period: char := '.'

  /** What every title produced from a reply is: non-empty, stripped, and
      free of the period it was split on. */
  predicate IsTitle(t: string) {
    t != [] && Stripped(t) && Period !in t
  }

  /** The list comprehension `[p.strip() for p in parts if p.strip()]`. */
  function KeepStripped(parts: seq<string>): (ts: seq<string>)
    ensures |ts| <= |parts|
    ensures forall k :: 0 <= k < |ts| ==> ts[k] != [] && Stripped(ts[k])
  {
    if parts == [] then []
    else (if Strip(parts[0]) != [] then [Strip(parts[0])] else []) + KeepStripped(parts[1..])
  }

  /** `create_slide_title` once the model's reply is known. */
  function SlideTitles(reply: string): (ts: seq<string>)
    ensures forall k :: 0 <= k < |ts| ==> IsTitle(ts[k])
    ensures |ts| <= multiset(reply)[Period] + 1
  {
    var parts := Split(reply, Period);
    SplitCount(reply, Period);
    var ts := KeepStripped(parts);
    assert forall k :: 0 <= k < |ts| ==> Period !in ts[k] by {
      forall k | 0 <= k < |ts| ensures Period !in ts[k] {
        KeptExactly(parts, ts[k]);
        var p :| p in parts && Strip(p) == ts[k];
        StripKeepsOut(p, Period);
      }
    }
    ts
  }

  /** A stripped piece is kept exactly when some piece strips to it: the
      comprehension loses no non-blank piece and invents none. */
  lemma {:induction false} KeptExactly(parts: seq<string>, t: string)
    ensures t in KeepStripped(parts) <==> t != [] && exists p :: p in parts && Strip(p) == t
  {
    if parts != [] {
      KeptExactly(parts[1..], t);
      assert parts == [parts[0]] + parts[1..];
      if t != [] && Strip(parts[0]) != t {
        assert (exists p :: p in parts && Strip(p) == t) <==> (exists p :: p in parts[1..] && Strip(p) == t);
      }
    }
  }

  /** The comprehension keeps the order of the pieces. */
  lemma {:induction false} KeepStrippedConcat(p: seq<string>, q: seq<string>)
    ensures KeepStripped(p + q) == KeepStripped(p) + KeepStripped(q)
  {
    if p != [] {
      assert (p + q)[1..] == p[1..] + q;
      KeepStrippedConcat(p[1..], q);
    } else {
      assert p + q == q;
    }
  }

  /** The titles of two replies joined by a period are the titles of the
      first followed by the titles of the second. */
  lemma SlideTitlesConcat(a: string, b: string)
    ensures SlideTitles(a + [Period] + b) == SlideTitles(a) + SlideTitles(b)
  {
    SplitConcat(a, b, Period);
    KeepStrippedConcat(Split(a, Period), Split(b, Period));
  }

  /** A reply that is a single well-formed title yields just that title. */
  lemma SlideTitlesOfTitle(t: string)
    requires IsTitle(t)
    ensures SlideTitles(t) == [t]
  {
    SplitFree(t, Period);
    assert t[0..|t|] == t && t[..0] == [] && t[|t|..] == [];
    StripUnique(t, t);
  }

  /** A blank at the start of a reply does not change its titles; with
      `SlideTitlesConcat`, neither does a blank right after a period. */
  lemma SlideTitlesIndent(x: string)
    ensures SlideTitles([' '] + x) == SlideTitles(x)
  {
    var r := Split(x, Period);
    assert ([' '] + x)[1..] == x;
    assert Split([' '] + x, Period) == [[' '] + r[0]] + r[1..];
    StripIndent(r[0]);
    assert r == [r[0]] + r[1..];
  }

  /** How a list of titles reads when the model numbers nothing and writes
      them as sentences: "A. B. C." */
  function Render(ts: seq<string>): string
  {
    if ts == [] then []
    else if |ts| == 1 then ts[0] + [Period]
    else ts[0] + [Period] + ([' '] + Render(ts[1..]))
  }

  /** Reading titles back from their rendering gives them back, in order. */
  lemma {:induction false} RenderRoundTrip(ts: seq<string>)
    requires forall k :: 0 <= k < |ts| ==> IsTitle(ts[k])
    ensures SlideTitles(Render(ts)) == ts
  {
    if ts == [] {
      assert Split([], Period) == [[]];
      assert Strip([]) == [];
    } else if |ts| == 1 {
      RenderLast(ts[0]);
    } else {
      RenderRoundTrip(ts[1..]);
      RenderCons(ts[0], ts[1..]);
    }
  }

  /** The last title, followed by its period. */
  lemma RenderLast(t: string)
    requires IsTitle(t)
    ensures SlideTitles(t + [Period]) == [t]
  {
    SlideTitlesOfTitle(t);
    SlideTitlesConcat(t, []);
    assert t + [Period] + [] == t + [Period];
    assert Split([], Period) == [[]];
    assert Strip([]) == [];
  }

  /** A title, its period and a blank in front of the rendering of the rest. */
  lemma RenderCons(t: string, ts: seq<string>)
    requires IsTitle(t) && |ts| >= 1
    ensures SlideTitles(Render([t] + ts)) == [t] + SlideTitles(Render(ts))
  {
    var rest := Render(ts);
    assert ([t] + ts)[1..] == ts;
    SlideTitlesOfTitle(t);
    SlideTitlesConcat(t, [' '] + rest);
    SlideTitlesIndent(rest);
  }

  /** A reply of four sentences yields four titles, without their periods. */
  lemma FourSentenceReply()
    ensures SlideTitles("Intro." + " Testing Basics." + " Test Coverage." + " Conclusion.")
         == ["Intro", "Testing Basics", "Test Coverage", "Conclusion"]
  {
    ScenarioTitles();
    ScenarioRender();
    RenderRoundTrip(Scenario);
  }

  /** The four titles of the example reply. */
  const Scenario: seq<string> := ["Intro", "Testing Basics", "Test Coverage", "Conclusion"]

  lemma ScenarioRender()
    ensures Render(Scenario) == "Intro." + " Testing Basics." + " Test Coverage." + " Conclusion."
  {
    var ts := Scenario;
    assert ts[1..][1..] == ts[2..] && ts[2..][1..] == ts[3..];
    assert Render(ts[3..]) == ts[3] + [Period];
    assert Render(ts[2..]) == ts[2] + [Period] + ([' '] + Render(ts[3..]));
    assert Render(ts[1..]) == ts[1] + [Period] + ([' '] + Render(ts[2..]));
    assert Render(ts) == ts[0] + [Period] + ([' '] + Render(ts[1..]));
    Regroup(ts[0], ts[1], ts[2], ts[3]);
    ScenarioPieces();
  }

  lemma ScenarioPieces()
    ensures Scenario[0] + [Period] == "Intro."
    ensures [' '] + Scenario[1] + [Period] == " Testing Basics."
    ensures [' '] + Scenario[2] + [Period] == " Test Coverage."
    ensures [' '] + Scenario[3] + [Period] == " Conclusion."
  {
  }

  lemma ScenarioTitles()
    ensures forall k :: 0 <= k < |Scenario| ==> IsTitle(Scenario[k])
  {
    assert IsTitle("Intro");
    assert IsTitle("Testing Basics");
    assert IsTitle("Test Coverage");
    assert IsTitle("Conclusion");
  }

  lemma Regroup(a: string, b: string, c: string, d: string)
    ensures a + [Period] + ([' '] + (b + [Period] + ([' '] + (c + [Period] + ([' '] + (d + [Period]))))))
         == (a + [Period]) + ([' '] + b + [Period]) + ([' '] + c + [Period]) + ([' '] + d + [Period])
  {
  }
}
