/** TagBuffer of L5KTuner/l5k_parser.py: the accumulator that collects the chunks of one TAG
    statement and reports, chunk by chunk, whether a top-level ';' has been seen. Its
    per-character scan is the one of first_outside_parens (L5kStrings.FopStep): quotes of
    either kind with `$` escapes, and a bracket depth that never drops below zero. */
module TagBuffers {
  import opened Text
  import opened L5kStrings

  /** The character ends the statement: a ';' outside both quote kinds at depth 0. */
  predicate EndsStatement(st: FopState, ch: char)
  {
    !st.sq && !st.dq && ch == ';' && st.depth == 0
  }

  /** Some character of t, scanned from st, ends the statement. */
  predicate Completes(t: string, st: FopState)
  {
    t != [] && (EndsStatement(st, t[0]) || Completes(t[1..], FopStep(st, t[0])))
  }

  class TagBuffer {
    var parts: seq<string>
    var depth: nat
    var inSq: bool
    var inDq: bool
    var esc: bool

    /** The scan state carried from one chunk to the next. */
    function State(): FopState
      reads this
    {
      FopState(depth, inSq, inDq, esc)
    }

    /** TagBuffer(parts=[]). */
    constructor()
      ensures parts == [] && State() == FopStart
    {
      parts := [];
      depth := 0;
      inSq := false;
      inDq := false;
      esc := false;
    }

    /** reset: no parts, depth 0, outside quotes, no pending escape. */
    method Reset()
      modifies this
      ensures parts == [] && State() == FopStart
    {
      parts := [];
      depth := 0;
      inSq := false;
      inDq := false;
      esc := false;
    }

    /** feed: the chunk is kept, the scan state moves over it, and the result says whether
        the chunk held a top-level ';' given the state the earlier chunks left. */
    method Feed(chunk: string) returns (complete: bool)
      modifies this
      ensures parts == old(parts) + [chunk]
      ensures State() == FopScan(chunk, old(State()))
      ensures complete == Completes(chunk, old(State()))
    {
      parts := parts + [chunk];
      complete := false;
      ghost var st0 := State();
      var i := 0;
      while i < |chunk|
        invariant 0 <= i <= |chunk|
        invariant parts == old(parts) + [chunk]
        invariant FopScan(chunk[i..], State()) == FopScan(chunk, st0)
        invariant (complete || Completes(chunk[i..], State())) == Completes(chunk, st0)
      {
        var ch := chunk[i];
        ScanAt(chunk, i, State());
        if inSq {
          if esc {
            esc := false;
          } else if ch == '$' {
            esc := true;
          } else if ch == '\'' {
            inSq := false;
          }
        } else if inDq {
          if esc {
            esc := false;
          } else if ch == '$' {
            esc := true;
          } else if ch == '"' {
            inDq := false;
          }
        } else if ch == '\'' {
          inSq := true;
        } else if ch == '"' {
          inDq := true;
        } else if ch == '(' || ch == '[' || ch == '{' {
          depth := depth + 1;
        } else if ch == ')' || ch == ']' || ch == '}' {
          if depth > 0 {
            depth := depth - 1;
          }
        } else if ch == ';' && depth == 0 {
          complete := true;
        }
        i := i + 1;
      }
    }

    /** flush: the parts joined by single spaces; the buffer is reset. */
    method Flush() returns (stmt: string)
      modifies this
      ensures stmt == Join(old(parts), " ")
      ensures parts == [] && State() == FopStart
    {
      stmt := Join(parts, " ");
      Reset();
    }
  }

  // ---------------------------------------------------------------- properties

  lemma ScanAt(s: string, i: nat, st: FopState)
    requires i < |s|
    ensures FopScan(s[i..], st) == FopScan(s[i + 1..], FopStep(st, s[i]))
    ensures Completes(s[i..], st) == (EndsStatement(st, s[i]) || Completes(s[i + 1..], FopStep(st, s[i])))
  {
    assert s[i..][1..] == s[i + 1..];
  }

  /** feed reports completion exactly when some character of the chunk is a ';' that the
      scan reaches outside quotes at depth 0. */
  lemma {:induction false} CompletesIff(t: string, st: FopState)
    ensures Completes(t, st) <==>
      exists k :: 0 <= k < |t| && EndsStatement(FopScan(t[..k], st), t[k])
  {
    if t != [] {
      var rest := t[1..];
      var st1 := FopStep(st, t[0]);
      CompletesIff(rest, st1);
      forall k | 0 < k < |t|
        ensures FopScan(t[..k], st) == FopScan(rest[..k - 1], st1) && t[k] == rest[k - 1]
      {
        assert t[..k][1..] == rest[..k - 1];
      }
      assert FopScan(t[..0], st) == st;
      if Completes(t, st) && !EndsStatement(st, t[0]) {
        var j :| 0 <= j < |rest| && EndsStatement(FopScan(rest[..j], st1), rest[j]);
        assert EndsStatement(FopScan(t[..j + 1], st), t[j + 1]);
      }
      if !Completes(t, st) {
        forall k | 0 <= k < |t| ensures !EndsStatement(FopScan(t[..k], st), t[k]) {
          if k > 0 {
            assert !EndsStatement(FopScan(rest[..k - 1], st1), rest[k - 1]);
          }
        }
      }
    }
  }

  /** The state persists across chunks: feeding a and then b reports completion and leaves
      the state exactly as feeding a + b in one chunk does. */
  lemma {:induction false} CompletesConcat(a: string, b: string, st: FopState)
    ensures Completes(a + b, st) == (Completes(a, st) || Completes(b, FopScan(a, st)))
    ensures FopScan(a + b, st) == FopScan(b, FopScan(a, st))
  {
    FopScanConcat(a, b, st);
    if a == [] {
      assert a + b == b;
    } else {
      assert (a + b)[0] == a[0] && (a + b)[1..] == a[1..] + b;
      CompletesConcat(a[1..], b, FopStep(st, a[0]));
    }
  }

  /** Inside a string an encoded character never ends the statement. */
  lemma EncodedCharNoEnd(st: FopState, c: char)
    requires (st.sq != st.dq) && !st.esc
    ensures !Completes(EncodeChar(c), st)
  {
    var e := EncodeChar(c);
    if c == '$' || c == '"' || c == '\'' || c == '\r' || c == '\n' {
      assert e == ['$', e[1]] && e[1..] == [e[1]] && [e[1]][1..] == [];
      var st1 := FopStep(st, '$');
      assert st1.sq == st.sq && st1.dq == st.dq;
      assert !EndsStatement(st1, e[1]) && !Completes([], FopStep(st1, e[1]));
    } else {
      assert e == [c] && e[1..] == [];
    }
  }

  lemma {:induction false} EncodedBodyNoEnd(st: FopState, x: string)
    requires (st.sq != st.dq) && !st.esc
    ensures !Completes(EncodeMap(x), st)
  {
    if x != [] {
      CompletesConcat(EncodeChar(x[0]), EncodeMap(x[1..]), st);
      EncodedCharNoEnd(st, x[0]);
      EncodedCharInString(st, x[0]);
      EncodedBodyNoEnd(st, x[1..]);
    }
  }

  /** A string literal written by encode_l5k_string, in either quote kind, never completes a
      statement whatever it holds (a ';' or a quote included), and the scan leaves it in the
      state it entered it, so a ';' after it still counts. */
  lemma EncodedLiteralNoEnd(st: FopState, x: string, q: char)
    requires !st.sq && !st.dq && !st.esc && (q == '"' || q == '\'')
    ensures !Completes([q] + Encode(x) + [q], st)
    ensures FopScan([q] + Encode(x) + [q], st) == st
  {
    EncodedLiteralSkipped(st, x, q);
    EncodeIsMap(x);
    var inside := if q == '"' then st.(dq := true) else st.(sq := true);
    assert FopStep(st, q) == inside;
    assert ([q] + Encode(x) + [q])[1..] == Encode(x) + [q];
    CompletesConcat(Encode(x), [q], inside);
    EncodedBodyNoEnd(inside, x);
    EncodedBodyInString(inside, x);
    assert [q][1..] == [];
  }

  /** Brackets inside a string do not move the depth, and a closer at depth 0 leaves it at 0. */
  lemma DepthSteps(st: FopState, ch: char)
    ensures (st.sq || st.dq) ==> FopStep(st, ch).depth == st.depth
    ensures !st.sq && !st.dq && Closer(ch) && st.depth == 0 ==> FopStep(st, ch).depth == 0
    ensures FopStep(st, ch).depth != st.depth ==> !st.sq && !st.dq && (Opener(ch) || Closer(ch))
  {
  }
}
