// The normalising loop of the SAC console's `parse_input`, which rewrites its copy of the command in place.
module SacParser {
  // ---- C strings ----

  /** The characters up to the first NUL. */
  function CString(buffer: seq<char>): (r: string)
    requires '\0' in buffer
    ensures |r| < |buffer| && r == buffer[..|r|] && '\0' !in r && buffer[|r|] == '\0'
  {
    if buffer[0] == '\0' then [] else [buffer[0]] + CString(buffer[1..])
  }

  lemma {:induction false} CStringIs(buffer: seq<char>, s: string)
    requires |s| < |buffer| && buffer[..|s|] == s && '\0' !in s && buffer[|s|] == '\0'
    ensures '\0' in buffer && CString(buffer) == s
  {
    if s != [] {
      assert buffer[0] == s[0] && buffer[1..][..|s| - 1] == s[1..];
      CStringIs(buffer[1..], s[1..]);
    }
  }

  // ---- the normal form ----

  predicate IsGap(c: char) { c == ' ' || c == '\n' }

  /** What the loop makes of the rest of the command: `open` inside quotes, `after` right after a gap. */
  function Normal(s: string, open: bool, after: bool): string {
    if s == [] then []
    else if open then [s[0]] + Normal(s[1..], s[0] != '"', after)
    else if !IsGap(s[0]) then [s[0]] + Normal(s[1..], s[0] == '"', false)
    else (if after then [] else ['|']) + Normal(s[1..], false, true)
  }

  /** From `i` on, the buffer holds the string `rest` and its NUL; there is no NUL before. */
  ghost predicate Holds(b: seq<char>, i: int, rest: string) {
    && 0 <= i && i + |rest| < |b|
    && b[i..i + |rest|] == rest && '\0' !in rest && '\0' !in b[..i] && b[i + |rest|] == '\0'
  }

  lemma Advance(b: seq<char>, i: int, rest: string, c: char)
    requires Holds(b, i, rest) && rest != [] && c != '\0'
    ensures Holds(b[i := c], i + 1, rest[1..]) && b[i := c][..i + 1] == b[..i] + [c]
  {
    var w := b[i := c];
    assert w[i + 1..i + |rest|] == b[i..i + |rest|][1..];
    assert w[..i + 1] == b[..i] + [c];
  }

  /** The buffer has a NUL at `i` exactly when nothing is left. */
  lemma Front(b: seq<char>, i: int, rest: string)
    requires Holds(b, i, rest)
    ensures 0 <= i < |b| && (b[i] == '\0' <==> rest == [])
    ensures rest != [] ==> rest[0] == b[i]
  {
    if rest != [] {
      assert b[i..i + |rest|][0] == b[i];
    }
  }

  lemma Keep(b: seq<char>, i: int, rest: string)
    requires Holds(b, i, rest) && rest != []
    ensures Holds(b, i + 1, rest[1..]) && b[..i + 1] == b[..i] + [rest[0]]
  {
    Front(b, i, rest);
    Advance(b, i, rest, b[i]);
    assert b[i := b[i]] == b;
  }

  lemma Done(b: seq<char>, i: int)
    requires Holds(b, i, []) && i + 1 < |b|
    ensures '\0' in b[i + 1 := '\0'] && CString(b[i + 1 := '\0']) == b[..i]
  {
    CStringIs(b[i + 1 := '\0'], b[..i]);
  }

  lemma NormalStep(done: string, rest: string, open: bool, after: bool)
    requires rest != []
    ensures open ==> done + Normal(rest, open, after) == (done + [rest[0]]) + Normal(rest[1..], rest[0] != '"', after)
    ensures !open && !IsGap(rest[0]) ==>
      done + Normal(rest, open, after) == (done + [rest[0]]) + Normal(rest[1..], rest[0] == '"', false)
    ensures !open && IsGap(rest[0]) && after ==>
      done + Normal(rest, open, after) == done + Normal(rest[1..], false, true)
    ensures !open && IsGap(rest[0]) && !after ==>
      done + Normal(rest, open, after) == (done + ['|']) + Normal(rest[1..], false, true)
  {}

  /** The loop itself, on a copy of the command one byte longer than the command and its NUL. */
  method Normalise(instr_buff: string) returns (normal: string)
    requires '\0' !in instr_buff
    ensures normal == Normal(instr_buff, false, false)
  {
    hide Normal, Holds, CString;
    var buff := CopyOf(instr_buff);
    var i := 0;
    var last_character_was_null := false;
    var openText := false;
    ghost var rest := instr_buff;
    assert buff[..0] + Normal(rest, false, false) == Normal(rest, false, false);
    while buff[i] != '\0'
      invariant 0 <= i && i + |rest| < buff.Length - 1 && Holds(buff[..], i, rest)
      invariant Normal(instr_buff, false, false) == buff[..i] + Normal(rest, openText, last_character_was_null)
      decreases |rest|
    {
      ghost var was := buff[..];
      Front(was, i, rest);
      NormalStep(was[..i], rest, openText, last_character_was_null);
      if !openText {
        if buff[i] == '\n' || buff[i] == ' ' {
          buff[i] := '|';
          assert buff[..] == was[i := '|'];
          Advance(was, i, rest, '|');
          if last_character_was_null {
            ShiftTail(buff, i, rest[1..]);
            i := i - 1;
          }
          last_character_was_null := true;
        } else {
          Keep(was, i, rest);
          last_character_was_null := false;
          if buff[i] == '"' { openText := true; }
        }
      } else {
        Keep(was, i, rest);
        if buff[i] == '"' { openText := false; }
      }
      i := i + 1;
      rest := rest[1..];
    }
    Front(buff[..], i, rest);
    Done(buff[..], i);
    ghost var last := buff[..];
    buff[i + 1] := '\0';
    assert buff[..] == last[i + 1 := '\0'];
    normal := CString(buff[..]);
    assert Normal(rest, openText, last_character_was_null) == [] by { EmptyNormal(openText, last_character_was_null); }
  }

  lemma EmptyNormal(open: bool, after: bool)
    ensures Normal([], open, after) == []
  {}

  method CopyOf(instr_buff: string) returns (buff: array<char>)
    requires '\0' !in instr_buff
    ensures fresh(buff) && buff.Length == |instr_buff| + 2 && Holds(buff[..], 0, instr_buff)
  {
    buff := new char[|instr_buff| + 2];
    forall k | 0 <= k < |instr_buff| {
      buff[k] := instr_buff[k];
    }
    buff[|instr_buff|] := '\0';
  }

  /** Overwrites position `i` and what follows with what followed it. */
  method ShiftTail(buff: array<char>, i: int, ghost tail: string)
    requires 0 <= i && Holds(buff[..], i + 1, tail)
    modifies buff
    ensures Holds(buff[..], i, tail) && buff[..i] == old(buff[..i])
  {
    assert buff[i + 1..i + 1 + |tail|] == buff[..][i + 1..i + 1 + |tail|];
    var tmp := CopyOfTail(buff, i + 1, tail);
    CopyBack(buff, i, tmp);
    assert forall k :: 0 <= k < i ==> buff[..i][k] == old(buff[..i + 1])[k];
  }

  /** `string_substring_from`. */
  method CopyOfTail(buff: array<char>, from: int, ghost tail: string) returns (tmp: string)
    requires 0 <= from && from + |tail| < buff.Length
    requires buff[from..from + |tail|] == tail && '\0' !in tail && buff[from + |tail|] == '\0'
    ensures tmp == tail
  {
    assert buff[from..][|tail|] == '\0' && buff[from..][..|tail|] == tail;
    CStringIs(buff[from..], tail);
    tmp := CString(buff[from..]);
  }

  method CopyBack(buff: array<char>, at: int, tmp: string)
    requires 0 <= at && at + |tmp| < buff.Length
    modifies buff
    ensures buff[..at] == old(buff[..at]) && buff[at..at + |tmp|] == tmp && buff[at + |tmp|] == '\0'
  {
    forall k | 0 <= k <= |tmp| {
      buff[at + k] := if k < |tmp| then tmp[k] else '\0';
    }
  }

  // ---- what the normal form means ----

  /** A command as a list of pieces: gaps between words, single characters, and quoted texts. */
  datatype Piece = Gap(run: string) | Plain(c: char) | Quoted(text: string, closed: bool)

  predicate PieceOk(p: Piece) {
    match p
    case Gap(run) => run != [] && forall c :: c in run ==> c == ' ' || c == '\n'
    case Plain(c) => c != ' ' && c != '\n' && c != '"'
    case Quoted(text, _) => '"' !in text
  }

  /** Gaps are maximal, and only the last quoted text may be left open. */
  predicate PiecesOk(ps: seq<Piece>) {
    && (forall i :: 0 <= i < |ps| ==> PieceOk(ps[i]))
    && (forall i :: 0 <= i < |ps| - 1 ==> !(ps[i].Gap? && ps[i + 1].Gap?))
    && (forall i :: 0 <= i < |ps| - 1 && ps[i].Quoted? ==> ps[i].closed)
  }

  function Written(p: Piece): string {
    match p
    case Gap(run) => run
    case Plain(c) => [c]
    case Quoted(text, closed) => ['"'] + text + (if closed then ['"'] else [])
  }

  /** Each gap becomes one bar; everything else stays. */
  function Barred(p: Piece): string {
    if p.Gap? then "|" else Written(p)
  }

  function WrittenAll(ps: seq<Piece>): string {
    if ps == [] then [] else Written(ps[0]) + WrittenAll(ps[1..])
  }

  function BarredAll(ps: seq<Piece>): string {
    if ps == [] then [] else Barred(ps[0]) + BarredAll(ps[1..])
  }

  lemma {:induction false} NormalSkipsGap(run: string, s: string)
    requires forall c :: c in run ==> IsGap(c)
    ensures Normal(run + s, false, true) == Normal(s, false, true)
  {
    if run == [] {
      assert run + s == s;
    } else {
      assert (run + s)[1..] == run[1..] + s && (run + s)[0] == run[0];
      NormalSkipsGap(run[1..], s);
    }
  }

  lemma {:induction false} NormalKeepsQuoted(text: string, s: string, after: bool)
    requires '"' !in text
    ensures Normal(text + s, true, after) == text + Normal(s, true, after)
  {
    if text == [] {
      assert text + s == s;
    } else {
      assert (text + s)[1..] == text[1..] + s && (text + s)[0] == text[0];
      NormalKeepsQuoted(text[1..], s, after);
    }
  }

  /** Where the next character is not a gap, or there is none, having just passed a gap makes no difference. */
  lemma AfterForgotten(ps: seq<Piece>)
    requires PiecesOk(ps) && (ps == [] || !ps[0].Gap?)
    ensures Normal(WrittenAll(ps), false, true) == Normal(WrittenAll(ps), false, false)
  {}

  lemma GapBarred(run: string, tail: string)
    requires PieceOk(Gap(run)) && Normal(tail, false, true) == Normal(tail, false, false)
    ensures Normal(run + tail, false, false) == ['|'] + Normal(tail, false, false)
  {
    assert (run + tail)[1..] == run[1..] + tail && (run + tail)[0] == run[0];
    assert run[0] in run && forall c :: c in run[1..] ==> c in run;
    NormalSkipsGap(run[1..], tail);
  }

  lemma NormalOpens(s: string)
    requires s != [] && s[0] == '"'
    ensures Normal(s, false, false) == ['"'] + Normal(s[1..], true, false)
  {
  }

  /** An opening quote and what follows it up to `ending`. */
  lemma OpeningKept(text: string, ending: string)
    requires '"' !in text
    ensures Normal((['"'] + text) + ending, false, false) == (['"'] + text) + Normal(ending, true, false)
  {
    hide Normal;
    var whole := (['"'] + text) + ending;
    assert whole[0] == '"' && whole[1..] == text + ending;
    NormalOpens(whole);
    NormalKeepsQuoted(text, ending, false);
  }

  lemma QuotedKept(text: string, closed: bool, tail: string)
    requires '"' !in text && (closed || tail == [])
    ensures Normal(Written(Quoted(text, closed)) + tail, false, false)
      == Written(Quoted(text, closed)) + Normal(tail, false, false)
  {
    var opening := ['"'] + text;
    if closed {
      var ending := ['"'] + tail;
      OpeningKept(text, ending);
      assert Normal(ending, true, false) == ['"'] + Normal(tail, false, false) by {
        assert ending[1..] == tail;
      }
      assert Written(Quoted(text, true)) == opening + ['"'];
      assert (opening + ['"']) + tail == opening + ending;
    } else {
      OpeningKept(text, []);
      assert Written(Quoted(text, false)) == opening == opening + [];
    }
  }

  /** The normal form replaces every maximal run of spaces and newlines outside quotes by one bar and touches nothing
      else. */
  lemma {:induction false} NormalBarsGaps(ps: seq<Piece>)
    requires PiecesOk(ps)
    ensures Normal(WrittenAll(ps), false, false) == BarredAll(ps)
  {
    if ps != [] {
      var tail := WrittenAll(ps[1..]);
      NormalBarsGaps(ps[1..]);
      assert PieceOk(ps[0]);
      if ps[0].Gap? {
        assert ps[1..] == [] || !ps[1].Gap?;
        AfterForgotten(ps[1..]);
        GapBarred(ps[0].run, tail);
      } else if ps[0].Plain? {
        assert ([ps[0].c] + tail)[1..] == tail;
      } else {
        assert !ps[0].closed ==> ps[1..] == [];
        QuotedKept(ps[0].text, ps[0].closed, tail);
      }
    }
  }

  /** A piece in front of well-formed pieces, unless that makes two gaps meet or leaves an open quote behind. */
  lemma InFront(p: Piece, ps: seq<Piece>)
    requires PieceOk(p) && PiecesOk(ps)
    requires ps != [] ==> !(p.Gap? && ps[0].Gap?) && (p.Quoted? ==> p.closed)
    ensures PiecesOk([p] + ps) && WrittenAll([p] + ps) == Written(p) + WrittenAll(ps)
  {
    assert ([p] + ps)[1..] == ps;
    assert forall i :: 0 < i < |ps| + 1 ==> ([p] + ps)[i] == ps[i - 1];
  }

  lemma PiecesTail(ps: seq<Piece>)
    requires PiecesOk(ps) && ps != []
    ensures PieceOk(ps[0]) && PiecesOk(ps[1..]) && (ps[0].Gap? && |ps| > 1 ==> !ps[1].Gap?)
  {}

  lemma GapInFront(c: char, rest: seq<Piece>) returns (ps: seq<Piece>)
    requires IsGap(c) && PiecesOk(rest)
    ensures PiecesOk(ps) && WrittenAll(ps) == [c] + WrittenAll(rest)
  {
    if rest != [] && rest[0].Gap? {
      PiecesTail(rest);
      ps := [Gap([c] + rest[0].run)] + rest[1..];
      InFront(Gap([c] + rest[0].run), rest[1..]);
      assert ([c] + rest[0].run) + WrittenAll(rest[1..]) == [c] + WrittenAll(rest);
    } else {
      ps := [Gap([c])] + rest;
      InFront(Gap([c]), rest);
    }
  }

  /** Every command is written by some such list of pieces. */
  lemma {:induction false} EveryCommandHasPieces(s: string) returns (ps: seq<Piece>)
    ensures PiecesOk(ps) && WrittenAll(ps) == s
    decreases |s|
  {
    hide PiecesOk, WrittenAll;
    if s == [] {
      ps := [];
      NoPieces();
    } else if '"' == s[0] && '"' in s[1..] {
      var text, after := SplitAtQuote(s[1..]);
      var rest := EveryCommandHasPieces(after);
      ps := [Quoted(text, true)] + rest;
      InFront(Quoted(text, true), rest);
      assert s == (['"'] + text + ['"']) + after;
    } else if '"' == s[0] {
      ps := [Quoted(s[1..], false)] + [];
      NoPieces();
      InFront(Quoted(s[1..], false), []);
    } else {
      var rest := EveryCommandHasPieces(s[1..]);
      if IsGap(s[0]) {
        ps := GapInFront(s[0], rest);
      } else {
        ps := [Plain(s[0])] + rest;
        InFront(Plain(s[0]), rest);
      }
    }
  }

  lemma NoPieces()
    ensures PiecesOk([]) && WrittenAll([]) == []
  {}

  lemma {:induction false} SplitAtQuote(s: string) returns (text: string, after: string)
    requires '"' in s
    ensures '"' !in text && s == text + ['"'] + after
  {
    if s[0] == '"' {
      text, after := [], s[1..];
    } else {
      text, after := SplitAtQuote(s[1..]);
      text := [s[0]] + text;
    }
  }

  /** No space or newline outside quotes. */
  predicate NoGaps(s: string, open: bool) {
    s == [] || ((open || (s[0] != ' ' && s[0] != '\n')) && NoGaps(s[1..], if open then s[0] != '"' else s[0] == '"'))
  }

  lemma {:induction false} NormalHasNoGaps(s: string, open: bool, after: bool)
    ensures NoGaps(Normal(s, open, after), open)
  {
    if s != [] {
      if open || !IsGap(s[0]) {
        var stays := if open then s[0] != '"' else s[0] == '"';
        var then_after := open && after;
        NormalHasNoGaps(s[1..], stays, then_after);
        assert Normal(s, open, after) == [s[0]] + Normal(s[1..], stays, then_after);
      } else {
        NormalHasNoGaps(s[1..], false, true);
        var rest := Normal(s[1..], false, true);
        if after {
          assert Normal(s, open, after) == rest;
        } else {
          assert Normal(s, open, after) == ['|'] + rest;
        }
      }
    }
  }

  /** The commands the loop leaves alone are those with no space or newline outside quotes. */
  lemma {:induction false} FixedIff(s: string, open: bool)
    ensures Normal(s, open, false) == s <==> NoGaps(s, open)
  {
    if s != [] {
      if open || !IsGap(s[0]) {
        FixedIff(s[1..], if open then s[0] != '"' else s[0] == '"');
      }
    }
  }

  /** Normalising twice is normalising once. */
  lemma Idempotent(s: string)
    ensures Normal(Normal(s, false, false), false, false) == Normal(s, false, false)
  {
    NormalHasNoGaps(s, false, false);
    FixedIff(Normal(s, false, false), false);
  }
}
