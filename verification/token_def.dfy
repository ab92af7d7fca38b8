/**
 * A token definition over bytes: the prefix, an optional argument kind, an
 * optional terminator and the token it stands for. The full sequence is the
 * prefix when there is no terminator, and prefix followed by terminator
 * otherwise. The IToken defaults (hasOption, hasTerminator, length, bytes)
 * are member functions here.
 */
module ByteTokenDef {
  import opened Wrappers
  import opened JavaLang
  import opened Tokens

  datatype TokenDef = TokenDef(
    prefix: seq<jbyte>,
    option: Option<TokenOption>,
    terminator: Option<seq<jbyte>>,
    token: Token,
    description: string)
  {
    /** The full sequence, fixed when the definition is built. */
    function Full(): (f: seq<jbyte>)
      ensures terminator.None? ==> f == prefix
      ensures terminator.Some? ==> |f| == |prefix| + |terminator.value|
      ensures f[..|prefix|] == prefix
      ensures terminator.Some? ==> f[|prefix|..] == terminator.value
    {
      if terminator.None? then prefix else prefix + terminator.value
    }

    predicate HasOption() { option.Some? }

    predicate HasTerminator() { terminator.Some? }

    function Length(): (n: nat)
      ensures n == |Full()|
      ensures n >= |prefix|
    {
      |Full()|
    }

    function Bytes(): (b: seq<jbyte>)
      ensures |b| == Length()
    {
      Full()
    }
  }

  /** The factory builds exactly the definition the constructor builds. */
  function CreateFrom(chars: seq<jbyte>, option: Option<TokenOption>, terminatorChars: Option<seq<jbyte>>,
                      token: Token, tokenDescription: string): (d: TokenDef)
    ensures d.prefix == chars && d.option == option && d.terminator == terminatorChars
    ensures d.token == token && d.description == tokenDescription
  {
    TokenDef(chars, option, terminatorChars, token, tokenDescription)
  }

  /** The prefix is always a prefix of the full sequence and of the bytes a tree is keyed on. */
  lemma PrefixOfFull(d: TokenDef)
    ensures |d.prefix| <= d.Length()
    ensures d.Bytes()[..|d.prefix|] == d.prefix
    ensures d.Length() == |d.prefix| <==> (d.terminator.None? || d.terminator.value == [])
  {
  }
}

/**
 * The char-based token definition variant: the full sequence is the prefix
 * characters, followed by the terminator character when there is one.
 */
module CharTokenDef {
  import opened Wrappers
  import opened Tokens

  datatype TokenDef = TokenDef(
    chars: string,
    option: Option<TokenOption>,
    terminatorChar: Option<char>,
    token: Token,
    description: string)
  {
    function Prefix(): (p: string)
      ensures p == chars
    {
      chars
    }

    function Full(): (f: string)
      ensures terminatorChar.None? ==> f == chars
      ensures terminatorChar.Some? ==> |f| == |chars| + 1 && f[..|chars|] == chars && f[|chars|] == terminatorChar.value
    {
      if terminatorChar.None? then chars else chars + [terminatorChar.value]
    }
  }

  function CreateFrom(chars: string, option: Option<TokenOption>, terminatorChar: Option<char>,
                      token: Token, tokenDescription: string): (d: TokenDef)
    ensures d.chars == chars && d.option == option && d.terminatorChar == terminatorChar
    ensures d.token == token && d.description == tokenDescription
  {
    TokenDef(chars, option, terminatorChar, token, tokenDescription)
  }
}
