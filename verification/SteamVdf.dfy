/** The Steam VDF lexer and parser. Strings are their ASCII bytes. */
module SteamVdf {
  import opened Wrappers

  const QUOTE: byte := 34
  const BACKSLASH: byte := 92
  const SLASH: byte := 47
  const OPEN: byte := 123
  const CLOSE: byte := 125
  const NEWLINE: byte := 10

  datatype Token = Text(text: Bytes) | Open | Close

  datatype Value = String(text: Bytes) | Object(fields: map<Bytes, Value>)

  datatype VdfError =
    | UnsupportedComment | ValueNotQuoted | UnsupportedEscape | Nul | NonAscii | UnclosedString
    | UnclosedObject | UnexpectedClose | KeyNotQuoted | NoValue | DuplicateKey(key: Bytes) | TrailingTokens

  predicate IsSpace(b: byte) { b == 32 || b == 9 || b == 10 || b == 12 || b == 13 }

  // The lexer on the bytes that are left

  function DropSpace(s: Bytes): (r: Bytes)
    ensures |r| <= |s|
  {
    if s != [] && IsSpace(s[0]) then DropSpace(s[1..]) else s
  }

  /** Drops up to the next line feed, which stays. */
  function DropLine(s: Bytes): (r: Bytes)
    ensures |r| <= |s|
  {
    if s != [] && s[0] != NEWLINE then DropLine(s[1..]) else s
  }

  predicate StartsComment(s: Bytes) { |s| >= 2 && s[0] == SLASH && s[1] == SLASH }

  function Skip(s: Bytes): (r: Result<Bytes, VdfError>)
    ensures r.Ok? ==> |r.value| <= |s|
    decreases |s|
  {
    var t := DropSpace(s);
    if StartsComment(t) then Skip(DropLine(t[2..]))
    else if t != [] && t[0] == SLASH then Err(UnsupportedComment)
    else Ok(t)
  }

  datatype Quoted = Quoted(text: Bytes, rest: Bytes)

  function Prepend(text: Bytes, r: Result<Quoted, VdfError>): Result<Quoted, VdfError> {
    match r
    case Ok(q) => Ok(Quoted(text + q.text, q.rest))
    case Err(e) => Err(e)
  }

  /** Reads a string whose opening quote is already consumed. */
  function Quote(s: Bytes): (r: Result<Quoted, VdfError>)
    ensures r.Ok? ==> |r.value.rest| < |s|
  {
    if s == [] then Err(UnclosedString)
    else if s[0] == QUOTE then Ok(Quoted([], s[1..]))
    else if s[0] == BACKSLASH then
      if |s| < 2 then Err(UnclosedString)
      else if s[1] == QUOTE || s[1] == BACKSLASH then Prepend([s[1]], Quote(s[2..]))
      else Err(UnsupportedEscape)
    else if s[0] == 0 then Err(Nul)
    else if s[0] < 128 then Prepend([s[0]], Quote(s[1..]))
    else Err(NonAscii)
  }

  function Cons(token: Token, r: Result<seq<Token>, VdfError>): Result<seq<Token>, VdfError> {
    match r
    case Ok(tokens) => Ok([token] + tokens)
    case Err(e) => Err(e)
  }

  function Lex(s: Bytes): Result<seq<Token>, VdfError>
    decreases |s|
  {
    match Skip(s)
    case Err(e) => Err(e)
    case Ok(t) =>
      if t == [] then Ok([])
      else if t[0] == OPEN then Cons(Open, Lex(t[1..]))
      else if t[0] == CLOSE then Cons(Close, Lex(t[1..]))
      else if t[0] == QUOTE then
        match Quote(t[1..])
        case Err(e) => Err(e)
        case Ok(q) => Cons(Text(q.text), Lex(q.rest))
      else Err(ValueNotQuoted)
  }

  class Lexer {
    const source: Bytes
    var offset: nat

    ghost predicate Valid()
      reads this
    {
      offset <= |source|
    }

    ghost function Left(): Bytes
      reads this
      requires Valid()
    {
      source[offset..]
    }

    constructor (source: Bytes)
      ensures Valid() && this.source == source && Left() == source
    {
      this.source := source;
      this.offset := 0;
    }

    method SkipSpaceAndComments() returns (r: Result<bool, VdfError>)
      requires Valid()
      modifies this
      ensures Valid() && offset >= old(offset)
      ensures match Skip(old(Left()))
              case Err(e) => r == Err(e)
              case Ok(t) => r == Ok(t != []) && Left() == t
    {
      ghost var start := Left();
      while true
        invariant Valid() && offset >= old(offset)
        invariant Skip(Left()) == Skip(start)
        decreases |source| - offset
      {
        ghost var turn := Left();
        while offset < |source| && IsSpace(source[offset])
          invariant Valid() && offset >= |source| - |turn|
          invariant DropSpace(Left()) == DropSpace(turn)
        {
          assert Left()[1..] == source[offset + 1..];
          offset := offset + 1;
        }
        assert Left() == DropSpace(turn);
        if offset >= |source| { return Ok(false); }
        if offset + 1 < |source| && source[offset] == SLASH && source[offset + 1] == SLASH {
          assert StartsComment(Left()) && Left()[2..] == source[offset + 2..];
          offset := offset + 2;
          ghost var comment := Left();
          while offset < |source| && source[offset] != NEWLINE
            invariant Valid() && offset >= |source| - |comment|
            invariant DropLine(Left()) == DropLine(comment)
          {
            assert Left()[1..] == source[offset + 1..];
            offset := offset + 1;
          }
          assert Left() == DropLine(comment);
          continue;
        }
        if source[offset] == SLASH { return Err(UnsupportedComment); }
        return Ok(true);
      }
    }

    method ReadQuoted() returns (r: Result<Bytes, VdfError>)
      requires Valid() && offset < |source|
      modifies this
      ensures Valid() && offset > old(offset)
      ensures match Quote(old(source[offset + 1..]))
              case Err(e) => r == Err(e)
              case Ok(q) => r == Ok(q.text) && Left() == q.rest
    {
      offset := offset + 1;
      ghost var start := Left();
      var result: Bytes := [];
      PrependNothing(Quote(start));
      while offset < |source|
        invariant Valid() && offset > old(offset)
        invariant Quote(start) == Prepend(result, Quote(Left()))
      {
        ghost var left := Left();
        var b := source[offset];
        offset := offset + 1;
        assert left[1..] == Left();
        if b == QUOTE {
          assert result + [] == result;
          return Ok(result);
        }
        if b == BACKSLASH {
          if offset >= |source| { break; }
          var escaped := source[offset];
          offset := offset + 1;
          assert left[2..] == Left();
          if escaped != QUOTE && escaped != BACKSLASH { return Err(UnsupportedEscape); }
          PrependTwice(result, [escaped], Quote(Left()));
          result := result + [escaped];
        } else if b == 0 {
          return Err(Nul);
        } else if b < 128 {
          PrependTwice(result, [b], Quote(Left()));
          result := result + [b];
        } else {
          return Err(NonAscii);
        }
      }
      r := Err(UnclosedString);
    }

    method Tokens() returns (r: Result<seq<Token>, VdfError>)
      requires Valid()
      modifies this
      ensures Valid()
      ensures r == Lex(old(Left()))
      ensures r.Ok? ==> offset == |source|
    {
      ghost var start := Left();
      var tokens: seq<Token> := [];
      AppendedNothing(Lex(start));
      while true
        invariant Valid()
        invariant Lex(start) == Appended(tokens, Lex(Left()))
        decreases |source| - offset
      {
        ghost var left := Left();
        var more := SkipSpaceAndComments();
        if more.Err? { return Err(more.error); }
        if !more.value {
          assert tokens + [] == tokens;
          return Ok(tokens);
        }
        assert Left()[1..] == source[offset + 1..];
        if source[offset] == OPEN {
          offset := offset + 1;
          AppendedTwice(tokens, Open, Lex(Left()));
          tokens := tokens + [Open];
        } else if source[offset] == CLOSE {
          offset := offset + 1;
          AppendedTwice(tokens, Close, Lex(Left()));
          tokens := tokens + [Close];
        } else if source[offset] == QUOTE {
          var text := ReadQuoted();
          if text.Err? { return Err(text.error); }
          AppendedTwice(tokens, Text(text.value), Lex(Left()));
          tokens := tokens + [Text(text.value)];
        } else {
          return Err(ValueNotQuoted);
        }
      }
    }
  }

  function Appended(tokens: seq<Token>, r: Result<seq<Token>, VdfError>): Result<seq<Token>, VdfError> {
    match r
    case Ok(more) => Ok(tokens + more)
    case Err(e) => Err(e)
  }

  lemma AppendedTwice(tokens: seq<Token>, token: Token, r: Result<seq<Token>, VdfError>)
    ensures Appended(tokens, Cons(token, r)) == Appended(tokens + [token], r)
  {
    if r.Ok? {
      assert tokens + ([token] + r.value) == tokens + [token] + r.value;
    }
  }

  lemma AppendedNothing(r: Result<seq<Token>, VdfError>)
    ensures Appended([], r) == r
  {
    if r.Ok? {
      assert [] + r.value == r.value;
    }
  }

  lemma PrependNothing(r: Result<Quoted, VdfError>)
    ensures Prepend([], r) == r
  {
    if r.Ok? {
      assert [] + r.value.text == r.value.text;
    }
  }

  lemma PrependTwice(a: Bytes, b: Bytes, r: Result<Quoted, VdfError>)
    ensures Prepend(a, Prepend(b, r)) == Prepend(a + b, r)
  {
    if r.Ok? {
      assert a + (b + r.value.text) == a + b + r.value.text;
    }
  }

  // The parser on the tokens that are left

  datatype Parsed = Parsed(fields: map<Bytes, Value>, rest: seq<Token>)

  function Parse(tokens: seq<Token>, expectClose: bool, fields: map<Bytes, Value>): (r: Result<Parsed, VdfError>)
    ensures r.Ok? ==> |r.value.rest| <= |tokens|
    decreases |tokens|
  {
    if tokens == [] then if expectClose then Err(UnclosedObject) else Ok(Parsed(fields, []))
    else match tokens[0]
      case Close => if expectClose then Ok(Parsed(fields, tokens[1..])) else Err(UnexpectedClose)
      case Open => Err(KeyNotQuoted)
      case Text(key) =>
        match ParseValue(tokens[1..])
        case Err(e) => Err(e)
        case Ok((value, rest)) =>
          if key in fields then Err(DuplicateKey(key)) else Parse(rest, expectClose, fields[key := value])
  }

  function ParseValue(tokens: seq<Token>): (r: Result<(Value, seq<Token>), VdfError>)
    ensures r.Ok? ==> |r.value.1| < |tokens|
    decreases |tokens|
  {
    if tokens == [] then Err(NoValue)
    else match tokens[0]
      case Text(text) => Ok((String(text), tokens[1..]))
      case Close => Err(NoValue)
      case Open =>
        match Parse(tokens[1..], true, map[])
        case Err(e) => Err(e)
        case Ok(p) => Ok((Object(p.fields), p.rest))
  }

  /** The cursor moves over every nested object. */
  method ParseObject(tokens: seq<Token>, start: nat, expectClose: bool)
    returns (r: Result<map<Bytes, Value>, VdfError>, cursor: nat)
    requires start <= |tokens|
    ensures start <= cursor <= |tokens|
    ensures match Parse(tokens[start..], expectClose, map[])
            case Err(e) => r == Err(e)
            case Ok(p) => r == Ok(p.fields) && tokens[cursor..] == p.rest
    decreases |tokens| - start
  {
    cursor := start;
    var fields: map<Bytes, Value> := map[];
    while true
      invariant start <= cursor <= |tokens|
      invariant Parse(tokens[start..], expectClose, map[]) == Parse(tokens[cursor..], expectClose, fields)
      decreases |tokens| - cursor
    {
      ghost var left := tokens[cursor..];
      if cursor == |tokens| {
        return if expectClose then Err(UnclosedObject) else Ok(fields), cursor;
      }
      assert left[1..] == tokens[cursor + 1..];
      if tokens[cursor] == Close {
        if !expectClose { return Err(UnexpectedClose), cursor; }
        return Ok(fields), cursor + 1;
      }
      if tokens[cursor].Open? { return Err(KeyNotQuoted), cursor; }
      var key := tokens[cursor].text;
      cursor := cursor + 1;
      if cursor == |tokens| { return Err(NoValue), cursor; }
      ghost var after := left[1..];
      assert after[1..] == tokens[cursor + 1..] && after[0] == tokens[cursor];
      var value;
      match tokens[cursor] {
        case Text(text) =>
          cursor := cursor + 1;
          value := String(text);
        case Open =>
          var inner;
          inner, cursor := ParseObject(tokens, cursor + 1, true);
          if inner.Err? {
            assert ParseValue(after) == Err(inner.error);
            return Err(inner.error), cursor;
          }
          value := Object(inner.value);
        case Close =>
          return Err(NoValue), cursor;
      }
      assert ParseValue(after) == Ok((value, tokens[cursor..]));
      if key in fields { return Err(DuplicateKey(key)), cursor; }
      fields := fields[key := value];
    }
  }

  /** What a text means: every token belongs to the outermost object. */
  function Meaning(text: Bytes): Result<map<Bytes, Value>, VdfError> {
    match Lex(text)
    case Err(e) => Err(e)
    case Ok(tokens) =>
      match Parse(tokens, false, map[])
      case Err(e) => Err(e)
      case Ok(p) => Ok(p.fields)
  }

  method ParseVdf(text: Bytes) returns (r: Result<map<Bytes, Value>, VdfError>)
    ensures r == Meaning(text)
  {
    var lexer := new Lexer(text);
    var tokens := lexer.Tokens();
    if tokens.Err? { return Err(tokens.error); }
    var fields, cursor := ParseObject(tokens.value, 0, false);
    assert tokens.value[0..] == tokens.value;
    if fields.Err? { return Err(fields.error); }
    OutermostTakesAll(tokens.value, map[]);
    if cursor != |tokens.value| {
      assert false;
      return Err(TrailingTokens);
    }
    return Ok(fields.value);
  }

  lemma {:induction false} OutermostTakesAll(tokens: seq<Token>, fields: map<Bytes, Value>)
    ensures var r := Parse(tokens, false, fields); r.Ok? ==> r.value.rest == []
    decreases |tokens|
  {
    if tokens != [] && tokens[0].Text? {
      var value := ParseValue(tokens[1..]);
      if value.Ok? && tokens[0].text !in fields {
        OutermostTakesAll(value.value.1, fields[tokens[0].text := value.value.0]);
      }
    }
  }
}
