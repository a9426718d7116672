/** The web client's reader of newline-terminated messages from a chunked body. */
module Framing {
  import opened Messages
  import opened Text

  /** The white space and line terminators `String.prototype.trim` removes. */
  function IsSpace(c: char): bool {
    || '\t' <= c <= '\r'
    || c in {' ', '\U{a0}', '\U{1680}', '\U{2028}', '\U{2029}', '\U{202f}', '\U{205f}', '\U{3000}', '\U{feff}'}
    || '\U{2000}' <= c <= '\U{200a}'
  }

  /** The newline-terminated lines of a text. */
  function Lines(text: string): seq<string> {
    if text == [] then []
    else
      var start, c := text[..|text| - 1], text[|text| - 1];
      if c == '\n' then Lines(start) + [Rest(start)] else Lines(start)
  }

  /** What follows the last newline. */
  function Rest(text: string): string {
    if text == [] then ""
    else
      var start, c := text[..|text| - 1], text[|text| - 1];
      if c == '\n' then "" else Rest(start) + [c]
  }

  /** `text.split("\n")` */
  function Split(text: string): seq<string> {
    Lines(text) + [Rest(text)]
  }

  /** What is left of a line after trimming, unless that is nothing. */
  function EmittedOne(line: string): seq<string> {
    var trimmed := Trim(line, IsSpace);
    if trimmed == "" then [] else [trimmed]
  }

  /** The messages among some lines. */
  function Emitted(lines: seq<string>): seq<string> {
    if lines == [] then [] else Emitted(lines[..|lines| - 1]) + EmittedOne(lines[|lines| - 1])
  }

  function Concat(chunks: seq<string>): string {
    if chunks == [] then "" else Concat(chunks[..|chunks| - 1]) + chunks[|chunks| - 1]
  }

  /** One more character. */
  lemma OneMore(text: string, c: char)
    ensures Rest(text + [c]) == if c == '\n' then "" else Rest(text) + [c]
    ensures Lines(text + [c]) == if c == '\n' then Lines(text) + [Rest(text)] else Lines(text)
  {
    assert (text + [c])[..|text|] == text;
  }

  /** Splitting a longer text only continues what follows the last newline. */
  lemma {:induction false} SplitAppend(a: string, b: string)
    ensures Rest(a + b) == Rest(Rest(a) + b)
    ensures Lines(a + b) == Lines(a) + Lines(Rest(a) + b)
  {
    if b == [] {
      AppendEmpty(a);
      AppendEmpty(Rest(a));
      AppendEmpty(Lines(a));
      NoNewline(a);
      Unbroken(Rest(a));
    } else {
      var start, c := b[..|b| - 1], b[|b| - 1];
      SplitAppend(a, start);
      SplitLast(b);
      Associative(a, start, [c]);
      Associative(Rest(a), start, [c]);
      OneMore(a + start, c);
      OneMore(Rest(a) + start, c);
    }
  }

  lemma {:induction false} NoNewline(text: string)
    ensures '\n' !in Rest(text)
  {
    if text != [] {
      NoNewline(text[..|text| - 1]);
    }
  }

  /** A text without newlines is one unterminated piece. */
  lemma {:induction false} Unbroken(m: string)
    requires '\n' !in m
    ensures Lines(m) == [] && Rest(m) == m
  {
    if m != [] {
      Unbroken(m[..|m| - 1]);
      assert m == m[..|m| - 1] + [m[|m| - 1]];
    }
  }

  lemma {:induction false} EmittedAppend(a: seq<string>, b: seq<string>)
    ensures Emitted(a + b) == Emitted(a) + Emitted(b)
  {
    if b == [] {
      AppendEmpty(a);
      AppendEmpty(Emitted(a));
    } else {
      EmittedAppend(a, b[..|b| - 1]);
      LastOfAppend(a, b);
      Associative(Emitted(a), Emitted(b[..|b| - 1]), EmittedOne(b[|b| - 1]));
    }
  }

  /** One more chunk: the messages it completes, and what it leaves in the buffer. */
  lemma ChunkStep(text: string, chunk: string)
    ensures Rest(text + chunk) == Rest(Rest(text) + chunk)
    ensures Emitted(Lines(text + chunk)) == Emitted(Lines(text)) + Emitted(Lines(Rest(text) + chunk))
  {
    SplitAppend(text, chunk);
    EmittedAppend(Lines(text), Lines(Rest(text) + chunk));
  }

  /** What the messages parse to, up to the first that does not. */
  function Parsed<T>(ms: seq<string>, parse: string -> Option<T>): seq<T> {
    if ms == [] || parse(ms[0]) == None then [] else [parse(ms[0]).value] + Parsed(ms[1..], parse)
  }

  predicate AllParse<T>(ms: seq<string>, parse: string -> Option<T>) {
    forall m :: m in ms ==> parse(m).Some?
  }

  lemma {:induction false} ParsedAppend<T>(a: seq<string>, b: seq<string>, parse: string -> Option<T>)
    ensures Parsed(a + b, parse) == if AllParse(a, parse) then Parsed(a, parse) + Parsed(b, parse) else Parsed(a, parse)
    ensures AllParse(a + b, parse) <==> AllParse(a, parse) && AllParse(b, parse)
  {
    if a == [] {
      AppendEmpty(b);
      AppendEmpty(Parsed(b, parse));
    } else {
      assert (a + b)[1..] == a[1..] + b && a == [a[0]] + a[1..];
      if parse(a[0]).Some? {
        ParsedAppend(a[1..], b, parse);
        Associative([parse(a[0]).value], Parsed(a[1..], parse), Parsed(b, parse));
      }
    }
  }

  /** The messages complete after some chunks come first among the messages of the whole body. */
  lemma {:induction false} ChunksPrefix(chunks: seq<string>, i: nat) returns (rest: seq<string>)
    requires i <= |chunks|
    ensures Emitted(Lines(Concat(chunks))) == Emitted(Lines(Concat(chunks[..i]))) + rest
    decreases |chunks| - i
  {
    if i == |chunks| {
      TakeAll(chunks);
      rest := [];
      AppendEmpty(Emitted(Lines(Concat(chunks))));
    } else {
      TakeNext(chunks, i);
      ChunkStep(Concat(chunks[..i]), chunks[i]);
      var more := Emitted(Lines(Rest(Concat(chunks[..i])) + chunks[i]));
      rest := ChunksPrefix(chunks, i + 1);
      Associative(Emitted(Lines(Concat(chunks[..i]))), more, rest);
      rest := more + rest;
    }
  }

  /**
   * The read loop: what it emits, and whether a message that does not parse ends it, does not
   * depend on where the body was cut.
   */
  method Stream<T>(chunks: seq<string>, parse: string -> Option<T>) returns (emitted: seq<T>, ok: bool)
    ensures emitted == Parsed(Emitted(Lines(Concat(chunks))), parse)
    ensures ok <==> AllParse(Emitted(Lines(Concat(chunks))), parse)
  {
    emitted, ok := [], true;
    var buf := "";
    for i := 0 to |chunks|
      invariant ok && buf == Rest(Concat(chunks[..i]))
      invariant emitted == Parsed(Emitted(Lines(Concat(chunks[..i]))), parse)
      invariant AllParse(Emitted(Lines(Concat(chunks[..i]))), parse)
    {
      TakeNext(chunks, i);
      ChunkStep(Concat(chunks[..i]), chunks[i]);
      var lines := Split(buf + chunks[i]);
      buf, lines := lines[|lines| - 1], lines[..|lines| - 1];
      emitted, ok := YieldLines(lines, parse, emitted, Emitted(Lines(Concat(chunks[..i]))));
      if !ok {
        ghost var rest := ChunksPrefix(chunks, i + 1);
        ParsedAppend(Emitted(Lines(Concat(chunks[..i + 1]))), rest, parse);
        return;
      }
    }
    TakeAll(chunks);
  }

  /** The inner loop over the complete lines; `done` are the messages of the lines before. */
  method YieldLines<T>(lines: seq<string>, parse: string -> Option<T>, before: seq<T>, ghost done: seq<string>)
    returns (emitted: seq<T>, ok: bool)
    requires before == Parsed(done, parse) && AllParse(done, parse)
    ensures emitted == Parsed(done + Emitted(lines), parse)
    ensures ok <==> AllParse(done + Emitted(lines), parse)
  {
    emitted, ok := before, true;
    AppendEmpty(done);
    for k := 0 to |lines|
      invariant ok && emitted == Parsed(done + Emitted(lines[..k]), parse)
      invariant AllParse(done + Emitted(lines[..k]), parse)
    {
      TakeNext(lines, k);
      var trimmed := Trim(lines[k], IsSpace);
      ghost var now := done + Emitted(lines[..k]);
      Associative(done, Emitted(lines[..k]), EmittedOne(lines[k]));
      ParsedAppend(now, EmittedOne(lines[k]), parse);
      AppendEmpty(now);
      if trimmed != "" {
        var message := parse(trimmed);
        ParsedOne(trimmed, parse);
        if message == None {
          LinesPrefix(lines, k + 1, done, parse);
          return emitted, false;
        }
        emitted := emitted + [message.value];
      }
    }
    TakeAll(lines);
  }

  lemma ParsedOne<T>(m: string, parse: string -> Option<T>)
    ensures Parsed([m], parse) == if parse(m).Some? then [parse(m).value] else []
    ensures AllParse([m], parse) <==> parse(m).Some?
  {
    assert [m][1..] == [];
    assert m in [m];
  }

  /** Once a message did not parse, the lines behind it do not matter. */
  lemma LinesPrefix<T>(lines: seq<string>, k: nat, done: seq<string>, parse: string -> Option<T>)
    requires k <= |lines| && !AllParse(done + Emitted(lines[..k]), parse)
    ensures Parsed(done + Emitted(lines), parse) == Parsed(done + Emitted(lines[..k]), parse)
    ensures !AllParse(done + Emitted(lines), parse)
  {
    Cut(lines, k);
    EmittedAppend(lines[..k], lines[k..]);
    Associative(done, Emitted(lines[..k]), Emitted(lines[k..]));
    ParsedAppend(done + Emitted(lines[..k]), Emitted(lines[k..]), parse);
  }

  // ---------------------------------------------------------------------------
  // Messages sent are messages received
  // ---------------------------------------------------------------------------

  /** Nothing blank is emitted, and nothing with white space at an end. */
  lemma {:induction false} EmittedTight(lines: seq<string>)
    ensures forall m :: m in Emitted(lines) ==> m != "" && Tight(m, IsSpace)
  {
    if lines != [] {
      EmittedTight(lines[..|lines| - 1]);
      TrimTight(lines[|lines| - 1], IsSpace);
    }
  }

  /** A message that stands on a line of its own: tight, not empty, without a newline. */
  predicate Sendable(m: string) {
    m != "" && Tight(m, IsSpace) && '\n' !in m
  }

  /** Such is every JSON object written on one line. */
  lemma ObjectIsSendable(m: string)
    requires |m| >= 2 && m[0] == '{' && m[|m| - 1] == '}' && '\n' !in m
    ensures Sendable(m)
  {
  }

  /** A line of a body: a message between paddings, or nothing but padding. */
  datatype Line = Message(before: string, text: string, after: string) | Blank(pad: string)

  predicate Padding(s: string) {
    forall c :: c in s ==> c == ' ' || c == '\t' || c == '\r'
  }

  predicate WellFormed(l: Line) {
    match l
    case Message(before, text, after) => Padding(before) && Sendable(text) && Padding(after)
    case Blank(pad) => Padding(pad)
  }

  function Written(l: Line): string {
    match l
    case Message(before, text, after) => before + text + after
    case Blank(pad) => pad
  }

  /** The body of a server that ends every line with a newline. */
  function Body(ls: seq<Line>): string {
    if ls == [] then "" else Body(ls[..|ls| - 1]) + Written(ls[|ls| - 1]) + "\n"
  }

  /** The messages among the lines, in order. */
  function Texts(ls: seq<Line>): seq<string> {
    if ls == [] then []
    else Texts(ls[..|ls| - 1]) + if ls[|ls| - 1].Message? then [ls[|ls| - 1].text] else []
  }

  lemma PaddingIsSpace(s: string)
    requires Padding(s)
    ensures AllSpace(s, IsSpace) && '\n' !in s
  {
  }

  /** One line: unbroken, and emitted as its message if it has one. */
  lemma LineEmitted(l: Line)
    requires WellFormed(l)
    ensures '\n' !in Written(l)
    ensures EmittedOne(Written(l)) == if l.Message? then [l.text] else []
  {
    match l
    case Message(before, text, after) =>
      PaddingIsSpace(before);
      PaddingIsSpace(after);
      TrimPadded(before, text, after, IsSpace);
    case Blank(pad) =>
      PaddingIsSpace(pad);
      TrimPadded(pad, "", "", IsSpace);
      AppendEmpty(pad);
  }

  lemma {:induction false} BodyEmitted(ls: seq<Line>)
    requires forall l :: l in ls ==> WellFormed(l)
    ensures Emitted(Lines(Body(ls))) == Texts(ls) && Rest(Body(ls)) == ""
  {
    if ls != [] {
      var start, l := ls[..|ls| - 1], ls[|ls| - 1];
      var text := Written(l);
      assert l in ls;
      BodyEmitted(start);
      LineEmitted(l);
      ChunkStep(Body(start), text);
      AppendEmpty(text);
      Unbroken(text);
      AppendEmpty(Emitted(Lines(Body(start))));
      OneMore(Body(start) + text, '\n');
      Snoc(Lines(Body(start) + text), text);
    }
  }

  /**
   * However the body is cut, whatever blank lines and padding it has, and whatever unterminated
   * text follows, the client emits exactly the messages, in order.
   */
  lemma BodyIsReceived(ls: seq<Line>, tail: string, chunks: seq<string>)
    requires forall l :: l in ls ==> WellFormed(l)
    requires Concat(chunks) == Body(ls) + tail && '\n' !in tail
    ensures Emitted(Lines(Concat(chunks))) == Texts(ls)
  {
    BodyEmitted(ls);
    ChunkStep(Body(ls), tail);
    AppendEmpty(tail);
    Unbroken(tail);
    AppendEmpty(Texts(ls));
  }

  lemma {:induction false} ParsedEach<T>(ms: seq<string>, parse: string -> Option<T>)
    requires AllParse(ms, parse)
    ensures |Parsed(ms, parse)| == |ms|
    ensures forall i :: 0 <= i < |ms| ==> parse(ms[i]) == Some(Parsed(ms, parse)[i])
  {
    if ms != [] {
      assert ms[0] in ms && forall m :: m in ms[1..] ==> m in ms;
      ParsedEach(ms[1..], parse);
    }
  }

  /**
   * What the loop emits of messages that parse, and of messages one of which does not: the values
   * in order, up to the first message that does not parse.
   */
  lemma MessagesAreParsed<T>(good: seq<string>, bad: string, behind: seq<string>, parse: string -> Option<T>)
    requires AllParse(good, parse) && parse(bad) == None
    ensures |Parsed(good, parse)| == |good| && forall i :: 0 <= i < |good| ==> parse(good[i]) == Some(Parsed(good, parse)[i])
    ensures Parsed(good + ([bad] + behind), parse) == Parsed(good, parse)
  {
    ParsedEach(good, parse);
    ParsedAppend(good, [bad] + behind, parse);
    AppendEmpty(Parsed(good, parse));
  }

  /** The chunks make up the body in the order they arrive. */
  lemma {:induction false} ConcatAppend(a: seq<string>, b: seq<string>, chunk: string)
    ensures Concat(a + b) == Concat(a) + Concat(b)
    ensures Concat([chunk]) == chunk
  {
    assert [chunk][..0] == [];
    AppendEmpty(chunk);
    if b == [] {
      AppendEmpty(a);
      AppendEmpty(Concat(a));
    } else {
      ConcatAppend(a, b[..|b| - 1], chunk);
      LastOfAppend(a, b);
      Associative(Concat(a), Concat(b[..|b| - 1]), b[|b| - 1]);
    }
  }
}
