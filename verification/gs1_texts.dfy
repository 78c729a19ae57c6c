/** From text to tree: a printed GS1 program, spelled out as text, is read back by the lexer and
    the parser as the program it was. */
module Gs1Texts {
  import opened Gs1Syntax
  import opened Gs1Grammar
  import opened Gs1Statements
  import opened Gs1Modes
  import opened Gs1Scan
  import opened Gs1Printer
  import opened Gs1RoundTrip
  import opened Gs1Programs
  import opened Gs1Spelling
  import opened Gs1Lexed

  /** What the lexer makes of a whole text. */
  function Lex(t: Tables, text: string): Option<seq<Token>> { Lexed(t, text, Lx(0, Start(), [], [], [])) }

  /** The text of a program. */
  function Written(t: Tables, terse: bool, ss: seq<Stmt>): string
    requires AllWritable(ss)
  {
    Spell(t, terse, Start(), BodyTokens(ss))
  }

  /** Reading undoes writing: the text of a program lexes, and its tokens parse to that program
      with no error recorded, whether or not `}` closes its last commands. */
  lemma ReadingUndoesWriting(t: Tables, terse: bool, ss: seq<Stmt>, recover: bool) returns (toks: seq<Token>)
    requires Usual(t) && AllWritable(ss) && Legible(t, terse, Start(), [], BodyTokens(ss))
    ensures Lex(t, Written(t, terse, ss)) == Some(toks)
    ensures toks != [] && Program(toks, [], 0, recover) == Result(Parsed(ss, |toks| - 1), [])
  {
    hide Usual, Legible, AllWritable, BodyTokens, Spell, Lexed, Program, AllStand;
    var ts := BodyTokens(ss);
    var read := LexingUndoesSpelling(t, terse, ts);
    toks := read + [Token(Eof, "")];
    StandsHere(read, ts);
    ProgramBack(ss, [], toks, 0, recover);
    assert [] + ss == ss;
  }

  lemma StandsHere(read: seq<Token>, ts: seq<Token>)
    requires AllStand(read, ts)
    ensures var toks := read + [Token(Eof, "")];
            Here(false, toks, 0, ts) && |ts| == |toks| - 1 && KindAt(toks, |ts|).Eof?
  {
    var toks := read + [Token(Eof, "")];
    forall k | 0 <= k < |ts| ensures Stands(toks[0 + k], ts[k]) { assert toks[k] == read[k]; }
  }

  // ------------------------------------------------------------- a small one

  /** `message` takes text, and needs no blank behind its name. */
  ghost predicate Small(t: Tables) {
    && Usual(t) && t.commands == map["message" := Gs1Scan.Command.Command("S", false)] && t.functions == map[]
    && t.keywords == map["if" := KwIf, "else" := KwElse]
  }

  const A: Token := Token(Identifier, "a")
  const MESSAGE: Token := Token(CommandName, "message")

  /** The tokens of an `if` whose two blocks hold one command each. */
  function Branches(): (ts: seq<Token>)
    ensures |ts| == 17
  {
    [Word(KwIf), Word(ParenLeft), A, Word(ParenRight)] + Block(" hi") + [Word(KwElse)] + Block(" lo")
  }

  function Block(text: string): (ts: seq<Token>)
    ensures |ts| == 6
  {
    [Word(BraceLeft), MESSAGE, Token(StringPart, ""), Token(StringPart, text), Word(End), Word(BraceRight)]
  }

  /** In the text of a command, with the default mode to come back to. */
  function Saying(): Context {
    Context(SMode, 0, 0, [Saved(State("", PopCommand, false, false, false), Default, 0, 0)])
  }

  /** The text from its last block on, and all of it. */
  const ELSE_TEXT: string := " else" + (" {" + (" message" + (" lo" + "}")))
  const IF_TEXT: string := " if" + (" (" + (" a" + (" )" + (" {" + (" message" + (" hi" + ("}" + ELSE_TEXT)))))))

  lemma MessageOpens(t: Tables)
    requires Small(t)
    ensures Turn(t, Start(), MESSAGE) == (Saying(), [Token(StringPart, "")])
    ensures Turn(t, Saying(), Word(BraceRight)).0 == Start()
  {
    hide Usual;
    var st := State("S", PopCommand, true, false, false);
    var open := Pushing(Start(), st);
    assert open.stack == [Saved(st, Default, 0, 0)] && "S"[1..] == "";
    assert Gs1Modes.Taken(st) == State("", PopCommand, false, false, false);
    assert open.stack[..0] + [Saying().stack[0]] == Saying().stack;
    assert PopNext(open, false) == Saying();
    assert Saying().stack[..0] == [];
  }

  /** What is legible from `k` on, and how it is spelled. */
  ghost predicate From(t: Tables, c: Context, k: nat, text: string) {
    k <= |Branches()| && Legible(t, true, c, Branches()[..k], Branches()[k..])
    && Spell(t, true, c, Branches()[k..]) == text
  }

  lemma Before(t: Tables, c: Context, k: nat, f: Turned, text: string)
    requires k + f.count <= |Branches()| && f.count > 0 && From(t, f.ctx, k + f.count, text)
    requires First(t, true, c, Branches()[k..]) == f && LegibleHere(t, true, c, Branches()[..k], Branches()[k..])
    ensures From(t, c, k, f.chars + text)
  {
    hide First, LegibleHere, Branches;
    var all := Branches();
    assert all[k..][f.count..] == all[k + f.count..] && all[..k] + all[k..][..f.count] == all[..k + f.count];
  }

  lemma At(k: nat)
    requires k < 17
    ensures |Branches()| == 17 && Branches()[k..][0] == Branches()[k]
    ensures k < 16 ==> Branches()[k..][1] == Branches()[k + 1] && Branches()[k..][1..2] == [Branches()[k + 1]]
    ensures k > 0 ==> Branches()[..k] != [] && Branches()[..k][|Branches()[..k]| - 1] == Branches()[k - 1]
  {
  }

  /** A mark at `k`, in the default mode. */
  lemma MarkBefore(t: Tables, k: nat, mark: string, text: string)
    requires k < 17 && Branches()[k].kind in {ParenLeft, ParenRight, BraceLeft}
    requires mark == " " + Spelling(Branches()[k])
    requires From(t, Start(), k + 1, text)
    ensures From(t, Start(), k, mark + text)
  {
    hide Legible, Spell, Branches;
    At(k);
    Before(t, Start(), k, Turned(Start(), 1, mark), text);
  }

  lemma Plain(w: string)
    requires w in {"if", "else", "a", "message"}
    ensures IsWord(w) && w !in {"in", "true", "false", "function", "switch"}
  {
  }

  lemma KeywordBefore(t: Tables, k: nat, word: string, text: string)
    requires Small(t) && k in {0, 10} && Branches()[k] in {Word(KwIf), Word(KwElse)}
    requires k == 10 ==> Branches()[9].kind.BraceRight?
    requires From(t, Start(), k + 1, text)
    requires word == " " + Spelling(Branches()[k])
    ensures From(t, Start(), k, word + text)
  {
    hide Usual, Legible, Spell, Branches, IsWord;
    At(k);
    var x := Branches()[k];
    Plain(Spelling(x));
    assert LegibleKeyword(t, Start(), Branches()[..k], x, Branches()[k..][1..]);
    Before(t, Start(), k, Turned(Start(), 1, word), text);
  }

  lemma NameBefore(t: Tables, k: nat, text: string)
    requires Small(t) && k in {2} && Branches()[2] == A && Branches()[1].kind.ParenLeft?
    requires From(t, Start(), k + 1, text)
    ensures From(t, Start(), k, " a" + text)
  {
    hide Usual, Legible, Spell, Branches, IsWord;
    At(k);
    Plain("a");
    assert LegibleName(t, Start(), Branches()[..k], "a");
    Before(t, Start(), k, Turned(Start(), 1, " a"), text);
  }

  /** The closing brace of a block whose command it ends. */
  lemma CloseBefore(t: Tables, k: nat, text: string)
    requires Small(t) && k < 16 && Branches()[k] == Word(End) && Branches()[k + 1] == Word(BraceRight)
    requires From(t, Start(), k + 2, text)
    ensures From(t, Saying(), k, "}" + text)
  {
    hide Usual, Legible, Spell, Branches;
    At(k);
    MessageOpens(t);
    Before(t, Saying(), k, Turned(Start(), 2, "}"), text);
  }

  lemma TextBefore(t: Tables, k: nat, text: string)
    requires k < 16 && Branches()[k] in {Token(StringPart, " hi"), Token(StringPart, " lo")}
    requires From(t, Saying(), k + 1, text) && text != "" && text[0] == '}'
    ensures From(t, Saying(), k, Branches()[k].text + text)
  {
    hide Legible, Spell, Branches;
    At(k);
    assert Branches()[k..][1..] == Branches()[k + 1..];
    assert Spell(t, true, Saying(), Branches()[k + 1..]) == text;
    Before(t, Saying(), k, Turned(Saying(), 1, Branches()[k].text), text);
  }

  lemma MessageLegible(t: Tables, done: seq<Token>, text: string)
    requires Small(t) && done != [] && done[|done| - 1].kind.BraceLeft? && text != "" && text[0] == ' '
    ensures LegibleCommand(t, Start(), done, MESSAGE, text)
  {
    hide Usual, IsWord;
    Plain("message");
  }

  lemma CommandBefore(t: Tables, k: nat, text: string)
    requires Small(t) && 0 < k < 15 && Branches()[k] == MESSAGE && Branches()[k + 1] == Token(StringPart, "")
    requires Branches()[k - 1] == Word(BraceLeft)
    requires From(t, Saying(), k + 2, text) && text != "" && text[0] == ' '
    ensures From(t, Start(), k, " message" + text)
  {
    hide Usual, Legible, Spell, Branches, IsWord;
    hide Turn, LegibleCommand, LegibleToken, Saying;
    At(k);
    MessageOpens(t);
    assert Branches()[k..][2..] == Branches()[k + 2..] && [Token(StringPart, "")] == [Branches()[k + 1]];
    MessageLegible(t, Branches()[..k], text);
    assert " " + "message" + "" == " message";
    assert First(t, true, Start(), Branches()[k..]) == Turned(Saying(), 2, " message");
    Before(t, Start(), k, Turned(Saying(), 2, " message"), text);
  }

  lemma Nothing(t: Tables)
    ensures From(t, Start(), 17, "")
  {
    assert Branches()[17..] == [];
  }

  lemma Tokens()
    ensures var b := Branches();
            && |b| == 17 && b[0] == Word(KwIf) && b[1] == Word(ParenLeft) && b[2] == A && b[3] == Word(ParenRight)
            && b[4] == Word(BraceLeft) && b[5] == MESSAGE && b[6] == Token(StringPart, "")
            && b[7] == Token(StringPart, " hi") && b[8] == Word(End) && b[9] == Word(BraceRight)
            && b[10] == Word(KwElse) && b[11] == Word(BraceLeft) && b[12] == MESSAGE && b[13] == Token(StringPart, "")
            && b[14] == Token(StringPart, " lo") && b[15] == Word(End) && b[16] == Word(BraceRight)
  {
  }

  /** A block from the text of its command on. */
  lemma BlockSpelled(t: Tables, k: nat, said: string, text: string)
    requires Small(t) && k in {4, 11} && said == (if k == 4 then " hi" else " lo") && From(t, Start(), k + 6, text)
    ensures From(t, Start(), k, " {" + (" message" + (said + ("}" + text))))
  {
    hide Small, From, Branches;
    Tokens();
    CloseBefore(t, k + 4, text);
    TextBefore(t, k + 3, "}" + text);
    CommandBefore(t, k + 1, said + ("}" + text));
    assert " " + "{" == " {";
    MarkBefore(t, k, " {", " message" + (said + ("}" + text)));
  }

  lemma ElseSpelled(t: Tables)
    requires Small(t)
    ensures From(t, Start(), 10, ELSE_TEXT)
  {
    hide Small, From, Branches;
    Tokens();
    Nothing(t);
    BlockSpelled(t, 11, " lo", "");
    assert "}" + "" == "}" && " " + "else" == " else";
    KeywordBefore(t, 10, " else", " {" + (" message" + (" lo" + ("}" + ""))));
  }

  lemma IfSpelled(t: Tables)
    requires Small(t)
    ensures From(t, Start(), 0, IF_TEXT)
  {
    hide Small, From, Branches;
    var block := " {" + (" message" + (" hi" + ("}" + ELSE_TEXT)));
    Tokens();
    ElseSpelled(t);
    BlockSpelled(t, 4, " hi", ELSE_TEXT);
    assert " " + "(" == " (" && " " + ")" == " )";
    MarkBefore(t, 3, " )", block);
    NameBefore(t, 2, " )" + block);
    MarkBefore(t, 1, " (", " a" + (" )" + block));
    assert " " + "if" == " if";
    KeywordBefore(t, 0, " if", " (" + (" a" + (" )" + block)));
  }

  /** `if ( a ) { message hi} else { message lo}`: two blocks that each end in a command without
      a terminator of its own. Each gets it, inside its block. */
  lemma BranchesRead(t: Tables) returns (toks: seq<Token>)
    requires Small(t)
    ensures Lex(t, IF_TEXT) == Some(toks + [Token(Eof, "")]) && AllStand(toks, Branches())
  {
    hide Usual, Legible, Spell, Lexed, AllStand;
    IfSpelled(t);
    assert Branches()[..0] == [] && Branches()[0..] == Branches();
    toks := LexingUndoesSpelling(t, true, Branches());
  }
}
