/** From text to tree (`parse` in reborn_protocol/gs1/parser.py): what the lexer guarantees is
    what the parser needs. */
module Gs1Front {
  import opened Gs1Syntax
  import opened Gs1Grammar
  import opened Gs1Statements
  import opened Gs1Recovery
  import opened Gs1Modes
  import opened Gs1Scan
  import opened Gs1Lexer
  import opened Gs1Parser

  /** A text the lexer accepts is never refused by the parser: unless the parser hangs, every
      token is read, and the recorded errors point into the text, in order. */
  method ParseText(tables: Tables, source: string)
    returns (lexed: bool, toks: seq<Token>, out: Outcome<seq<Stmt>>, errors: seq<nat>)
    requires Sound(tables)
    ensures Lexed(tables, Normalised(source), Lx(0, Start(), [], [], [])) == if lexed then Some(toks) else None
    ensures lexed ==> Ended(toks) && !out.Failed?
    ensures lexed ==> Result(out, errors) == Program(toks, [], 0, true)
    ensures lexed && out.Parsed? ==> out.at == |toks| - 1
    ensures lexed ==> forall j, k :: 0 <= j < k < |errors| ==> errors[j] <= errors[k] < |toks|
  {
    hide Program, Ended, Lexed;
    var lexer := new Lexer(tables, source);
    lexed := lexer.Tokenize();
    toks, out, errors := [], Failed(0), [];
    if lexed {
      toks := lexer.out;
      var parser := new Parser(toks, true);
      out := parser.ParseProgram();
      errors := parser.errors;
      RecoveryReadsEverything(toks);
    }
  }
}
