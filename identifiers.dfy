/** `str.isidentifier()` and `keyword.iskeyword`, as used by
    `is_valid_variable_name` in thales/config/utils.py and by
    `register_bot` in thales/config/bots.py. Identifier characters are
    restricted to ASCII. */
module Identifiers {
  import opened Common

  /** The reserved words of Python 3 (`keyword.kwlist`). */
  const KEYWORDS: seq<string> := [
    "False", "None", "True", "and", "as", "assert", "async", "await",
    "break", "class", "continue", "def", "del", "elif", "else", "except",
    "finally", "for", "from", "global", "if", "import", "in", "is",
    "lambda", "nonlocal", "not", "or", "pass", "raise", "return", "try",
    "while", "with", "yield"]

  predicate IsIdentifierStart(c: char) { IsAsciiLetter(c) || c == '_' }

  predicate IsIdentifierChar(c: char) { IsIdentifierStart(c) || IsDigit(c) }

  /** `name.isidentifier()` */
  predicate IsIdentifier(name: string) {
    |name| > 0 && IsIdentifierStart(name[0])
    && forall i :: 1 <= i < |name| ==> IsIdentifierChar(name[i])
  }

  /** `name.isidentifier() and not iskeyword(name)` */
  function IsValidVariableName(name: string): (ok: bool)
    ensures ok <==> |name| > 0 && IsIdentifierStart(name[0])
                    && (forall i :: 1 <= i < |name| ==> IsIdentifierChar(name[i]))
                    && name !in KEYWORDS
    ensures ok ==> |name| > 0 && !IsDigit(name[0])
    ensures ok ==> forall i :: 0 <= i < |name| ==> !IsSpace(name[i]) && name[i] != '.'
  {
    IsIdentifier(name) && name !in KEYWORDS
  }

  lemma KeywordsSpeltLow()
    ensures forall i :: 0 <= i < 18 ==> IsIdentifier(KEYWORDS[i])
  {
  }

  lemma KeywordsSpeltHigh()
    ensures forall i :: 18 <= i < |KEYWORDS| ==> IsIdentifier(KEYWORDS[i])
  {
  }

  /** Every keyword is spelt like an identifier, so it is the keyword test
      alone that rejects it. */
  lemma KeywordsRejected()
    ensures forall k :: k in KEYWORDS ==> IsIdentifier(k) && !IsValidVariableName(k)
  {
    KeywordsSpeltLow();
    KeywordsSpeltHigh();
    forall k | k in KEYWORDS ensures IsIdentifier(k) {
      var i :| 0 <= i < |KEYWORDS| && KEYWORDS[i] == k;
    }
  }

  /** The names the two bots are registered under are valid. */
  lemma FoXyLadyValid()
    ensures IsValidVariableName("FoXyLady")
  {
    FoXyLadyNotKeyword();
    assert IsIdentifier("FoXyLady");
  }

  lemma FoXyLadyNotKeyword()
    ensures "FoXyLady" !in KEYWORDS
  {
  }

  lemma FXyLadyValid()
    ensures IsValidVariableName("FXyLady")
  {
    FXyLadyNotKeyword();
    assert IsIdentifier("FXyLady");
  }

  lemma FXyLadyNotKeyword()
    ensures "FXyLady" !in KEYWORDS
  {
  }

  /** A keyword, a leading digit, a blank, a dot or the empty string makes a
      name invalid. */
  lemma InvalidNameExamples()
    ensures !IsValidVariableName("class") && !IsValidVariableName("None")
    ensures !IsValidVariableName("2bot") && !IsValidVariableName("my bot")
    ensures !IsValidVariableName("my.bot") && !IsValidVariableName("")
  {
    assert !IsIdentifierChar("my bot"[2]) && !IsIdentifierChar("my.bot"[2]);
  }
}
