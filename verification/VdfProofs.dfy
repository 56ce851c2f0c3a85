/** The VDF parser accepts exactly the printed trees, and gives their meaning back. */
module VdfProofs {
  import opened Wrappers
  import opened SteamVdf

  // Trees

  datatype Items = End | Item(key: Bytes, node: Node, rest: Items)
  datatype Node = Leaf(text: Bytes) | Branch(items: Items)

  function ItemTokens(items: Items): seq<Token> {
    match items
    case End => []
    case Item(key, node, rest) => [Text(key)] + NodeTokens(node) + ItemTokens(rest)
  }

  function NodeTokens(node: Node): seq<Token> {
    match node
    case Leaf(text) => [Text(text)]
    case Branch(items) => [Open] + ItemTokens(items) + [Close]
  }

  /** The object that holds `fields` and the items. */
  function Into(fields: map<Bytes, Value>, items: Items): map<Bytes, Value>
    decreases items
  {
    match items
    case End => fields
    case Item(key, node, rest) => Into(fields[key := NodeValue(node)], rest)
  }

  function NodeValue(node: Node): Value
    decreases node
  {
    match node
    case Leaf(text) => String(text)
    case Branch(items) => Object(Into(map[], items))
  }

  /** The keys of every object differ from each other and from `taken`. */
  ghost predicate DistinctKeys(taken: set<Bytes>, items: Items)
    decreases items
  {
    match items
    case End => true
    case Item(key, node, rest) => key !in taken && DistinctNodeKeys(node) && DistinctKeys(taken + {key}, rest)
  }

  ghost predicate DistinctNodeKeys(node: Node)
    decreases node
  {
    node.Branch? ==> DistinctKeys({}, node.items)
  }

  lemma {:induction false} ParseItems(items: Items, rest: seq<Token>, expectClose: bool, fields: map<Bytes, Value>)
    requires DistinctKeys(fields.Keys, items)
    ensures Parse(ItemTokens(items) + rest, expectClose, fields) == Parse(rest, expectClose, Into(fields, items))
    decreases items
  {
    hide NodeTokens, NodeValue, ParseValue, DistinctNodeKeys;
    match items
    case End =>
      assert ItemTokens(items) + rest == rest;
    case Item(key, node, others) =>
      var tokens := ItemTokens(items) + rest;
      var after := ItemTokens(others) + rest;
      assert tokens[1..] == NodeTokens(node) + after;
      ParseNode(node, after);
      var next := fields[key := NodeValue(node)];
      assert next.Keys == fields.Keys + {key};
      ParseItems(others, rest, expectClose, next);
  }

  lemma {:induction false} ParseNode(node: Node, rest: seq<Token>)
    requires DistinctNodeKeys(node)
    ensures ParseValue(NodeTokens(node) + rest) == Ok((NodeValue(node), rest))
    decreases node
  {
    var tokens := NodeTokens(node) + rest;
    match node
    case Leaf(text) =>
      assert tokens[1..] == rest;
    case Branch(items) =>
      assert tokens[1..] == ItemTokens(items) + ([Close] + rest);
      var none: map<Bytes, Value> := map[];
      assert none.Keys == {};
      ParseItems(items, [Close] + rest, true, none);
      assert ([Close] + rest)[1..] == rest;
  }

  function Closing(expectClose: bool): seq<Token> { if expectClose then [Close] else [] }

  lemma {:induction false} ParsedItems(tokens: seq<Token>, expectClose: bool, fields: map<Bytes, Value>)
    returns (items: Items)
    requires Parse(tokens, expectClose, fields).Ok?
    ensures var p := Parse(tokens, expectClose, fields).value;
            && DistinctKeys(fields.Keys, items)
            && p.fields == Into(fields, items)
            && tokens == ItemTokens(items) + (Closing(expectClose) + p.rest)
            && (!expectClose ==> p.rest == [])
    decreases |tokens|
  {
    hide ParseValue, NodeTokens, NodeValue, DistinctNodeKeys;
    var p := Parse(tokens, expectClose, fields).value;
    if tokens == [] || tokens[0].Close? {
      items := End;
      assert tokens == [] + (Closing(expectClose) + p.rest);
    } else {
      var key := tokens[0].text;
      var (value, after) := ParseValue(tokens[1..]).value;
      var node := ParsedNode(tokens[1..]);
      var next := fields[key := value];
      assert next.Keys == fields.Keys + {key};
      var others := ParsedItems(after, expectClose, next);
      items := Item(key, node, others);
      assert tokens == [tokens[0]] + tokens[1..];
      assert ItemTokens(items) + (Closing(expectClose) + p.rest)
          == [tokens[0]] + (NodeTokens(node) + (ItemTokens(others) + (Closing(expectClose) + p.rest)));
    }
  }

  lemma {:induction false} ParsedNode(tokens: seq<Token>) returns (node: Node)
    requires ParseValue(tokens).Ok?
    ensures DistinctNodeKeys(node)
    ensures ParseValue(tokens).value.0 == NodeValue(node)
    ensures tokens == NodeTokens(node) + ParseValue(tokens).value.1
    decreases |tokens|
  {
    var rest := ParseValue(tokens).value.1;
    var none: map<Bytes, Value> := map[];
    assert none.Keys == {};
    if tokens[0].Text? {
      node := Leaf(tokens[0].text);
      assert tokens == [tokens[0]] + tokens[1..];
    } else {
      var items := ParsedItems(tokens[1..], true, map[]);
      node := Branch(items);
      assert tokens == [Open] + tokens[1..];
      assert [Open] + (ItemTokens(items) + ([Close] + rest)) == NodeTokens(node) + rest;
    }
  }

  // Bytes

  predicate IsAscii(text: Bytes) { forall i | 0 <= i < |text| :: 0 < text[i] < 128 }

  /** A quote (34) and a backslash (92) are escaped by a backslash. */
  function EscapeByte(b: byte): Bytes { if b == 34 || b == 92 then [92, b] else [b] }

  function Escape(text: Bytes): Bytes {
    if text == [] then []
    else EscapeByte(text[0]) + Escape(text[1..])
  }

  /** Braces (123, 125) stand for themselves and strings are quoted (34). */
  function TokenBytes(token: Token): Bytes {
    match token
    case Open => [123]
    case Close => [125]
    case Text(text) => [34] + Escape(text) + [34]
  }

  /** Tab, line feed, form feed, carriage return and space. */
  predicate IsBlank(b: byte) { b == 9 || b == 10 || b == 12 || b == 13 || b == 32 }

  /** Two slashes (47) and then no line feed (10) before position `n`. */
  predicate IsCommentTo(s: Bytes, n: nat) {
    2 <= n <= |s| && s[0] == 47 && s[1] == 47 && forall k | 2 <= k < n :: s[k] != 10
  }

  /** Blanks and comments that their line feed ends. */
  ghost predicate IsGap(s: Bytes)
    decreases |s|
  {
    || s == []
    || (IsBlank(s[0]) && IsGap(s[1..]))
    || exists n | 0 <= n < |s| && IsCommentTo(s, n) && s[n] == 10 :: IsGap(s[n + 1..])
  }

  /** Like a gap, but the text may end inside the last comment. */
  ghost predicate IsTail(s: Bytes)
    decreases |s|
  {
    || s == []
    || (IsBlank(s[0]) && IsTail(s[1..]))
    || IsCommentTo(s, |s|)
    || exists n | 0 <= n < |s| && IsCommentTo(s, n) && s[n] == 10 :: IsTail(s[n + 1..])
  }

  predicate StartsToken(s: Bytes) { s != [] && !IsSpace(s[0]) && s[0] != SLASH }

  lemma {:induction false} DropLineSplit(s: Bytes) returns (line: Bytes)
    ensures s == line + DropLine(s) && 10 !in line
    ensures DropLine(s) != [] ==> DropLine(s)[0] == 10
  {
    if s != [] && s[0] != NEWLINE {
      var rest := DropLineSplit(s[1..]);
      line := [s[0]] + rest;
    } else {
      line := [];
    }
  }

  lemma {:induction false} DropLineOf(line: Bytes, s: Bytes)
    requires 10 !in line && (s != [] ==> s[0] == 10)
    ensures DropLine(line + s) == s
  {
    if line == [] {
      assert line + s == s;
    } else {
      assert (line + s)[1..] == line[1..] + s;
      DropLineOf(line[1..], s);
    }
  }

  lemma SkipBlank(s: Bytes)
    requires s != [] && IsBlank(s[0])
    ensures Skip(s) == Skip(s[1..])
  {
  }

  lemma SkipComment(s: Bytes, n: nat)
    requires IsCommentTo(s, n) && (n < |s| ==> s[n] == 10)
    ensures Skip(s) == Skip(s[n..])
  {
    hide DropLine;
    assert s[2..] == s[2..n] + s[n..];
    DropLineOf(s[2..n], s[n..]);
  }

  lemma SkipCommentLine(s: Bytes, n: nat)
    requires n < |s| && IsCommentTo(s, n) && s[n] == 10
    ensures Skip(s) == Skip(s[n + 1..])
  {
    hide Skip;
    SkipComment(s, n);
    SkipBlank(s[n..]);
  }

  lemma {:induction false} SkipGap(gap: Bytes, s: Bytes)
    requires IsGap(gap) && StartsToken(s)
    ensures Skip(gap + s) == Ok(s)
    decreases |gap|
  {
    var all := gap + s;
    if gap == [] {
      assert all == s;
      SkipNothing(s);
    } else if IsBlank(gap[0]) && IsGap(gap[1..]) {
      hide Skip;
      assert all[1..] == gap[1..] + s;
      SkipBlank(all);
      SkipGap(gap[1..], s);
    } else {
      hide Skip;
      var n :| 0 <= n < |gap| && IsCommentTo(gap, n) && gap[n] == 10 && IsGap(gap[n + 1..]);
      assert IsCommentTo(all, n) && all[n + 1..] == gap[n + 1..] + s;
      SkipCommentLine(all, n);
      SkipGap(gap[n + 1..], s);
    }
  }

  lemma SkipNothing(s: Bytes)
    requires s == [] || StartsToken(s)
    ensures Skip(s) == Ok(s)
  {
  }

  lemma {:induction false} SkipTail(tail: Bytes)
    requires IsTail(tail)
    ensures Skip(tail) == Ok([])
    decreases |tail|
  {
    if tail == [] {
      SkipNothing(tail);
    } else if IsBlank(tail[0]) && IsTail(tail[1..]) {
      hide Skip;
      SkipBlank(tail);
      SkipTail(tail[1..]);
    } else if IsCommentTo(tail, |tail|) {
      hide Skip;
      SkipComment(tail, |tail|);
      SkipNothing([]);
    } else {
      hide Skip;
      var n :| 0 <= n < |tail| && IsCommentTo(tail, n) && tail[n] == 10 && IsTail(tail[n + 1..]);
      SkipCommentLine(tail, n);
      SkipTail(tail[n + 1..]);
    }
  }

  /** A string is skipped byte by byte, comment by comment, or not at all. */
  lemma SkipCases(s: Bytes) returns (n: nat)
    requires Skip(s).Ok?
    ensures || (n == 0 && Skip(s) == Ok(s) && (s == [] || StartsToken(s)))
            || (s != [] && n == 1 && IsBlank(s[0]))
            || (n == |s| && IsCommentTo(s, n))
            || (2 < n <= |s| && IsCommentTo(s, n - 1) && s[n - 1] == 10)
  {
    if s == [] {
      n := 0;
    } else if IsSpace(s[0]) {
      n := 1;
    } else if StartsComment(s) {
      var line := DropLineSplit(s[2..]);
      var rest := DropLine(s[2..]);
      assert s == s[..2] + s[2..];
      assert forall k | 2 <= k < 2 + |line| :: s[k] == line[k - 2];
      n := if rest == [] then |s| else 3 + |line|;
      if rest != [] { assert s[2 + |line|] == rest[0]; }
    } else {
      n := 0;
    }
  }

  lemma {:induction false} Skipped(s: Bytes) returns (gap: Bytes)
    requires Skip(s).Ok?
    ensures s == gap + Skip(s).value
    ensures if Skip(s).value == [] then IsTail(gap) else IsGap(gap) && StartsToken(Skip(s).value)
    decreases |s|
  {
    hide Skip;
    var t := Skip(s).value;
    var n := SkipCases(s);
    if n == 0 {
      gap := [];
    } else if IsBlank(s[0]) {
      SkipBlank(s);
      var rest := Skipped(s[1..]);
      gap := [s[0]] + rest;
      assert gap[1..] == rest;
    } else if IsCommentTo(s, |s|) {
      SkipComment(s, |s|);
      SkipNothing([]);
      gap := s;
    } else {
      SkipCommentLine(s, n - 1);
      var rest := Skipped(s[n..]);
      gap := s[..n] + rest;
      assert IsCommentTo(gap, n - 1) && gap[n - 1] == 10 && gap[n - 1 + 1..] == rest;
      assert s == s[..n] + s[n..];
    }
  }

  lemma QuoteByte(b: byte, s: Bytes)
    requires 0 < b < 128
    ensures Quote(EscapeByte(b) + s) == Prepend([b], Quote(s))
  {
    var all := EscapeByte(b) + s;
    assert all[|EscapeByte(b)|..] == s;
  }

  lemma EscapeStep(text: Bytes, s: Bytes)
    requires text != []
    ensures Escape(text) + [QUOTE] + s == EscapeByte(text[0]) + (Escape(text[1..]) + [QUOTE] + s)
  {
    hide EscapeByte;
  }

  lemma {:induction false} QuoteEscape(text: Bytes, s: Bytes)
    requires IsAscii(text)
    ensures Quote(Escape(text) + [QUOTE] + s) == Ok(Quoted(text, s))
  {
    if text == [] {
      assert (Escape(text) + [QUOTE] + s)[1..] == s;
    } else {
      hide EscapeByte, Quote, Escape;
      QuoteEscape(text[1..], s);
      assert [text[0]] + text[1..] == text;
      QuoteByte(text[0], Escape(text[1..]) + [QUOTE] + s);
      EscapeStep(text, s);
    }
  }

  lemma QuotedByte(s: Bytes) returns (b: byte)
    requires Quote(s).Ok? && s[0] != QUOTE
    ensures 0 < b < 128 && |s| >= |EscapeByte(b)|
    ensures var rest := s[|EscapeByte(b)|..];
            s == EscapeByte(b) + rest && Quote(s) == Prepend([b], Quote(rest))
  {
    b := if s[0] == BACKSLASH then s[1] else s[0];
    assert s == s[..|EscapeByte(b)|] + s[|EscapeByte(b)|..];
  }

  lemma {:induction false} Unquoted(s: Bytes)
    requires Quote(s).Ok?
    ensures IsAscii(Quote(s).value.text)
    ensures s == Escape(Quote(s).value.text) + [QUOTE] + Quote(s).value.rest
    decreases |s|
  {
    if s[0] == QUOTE {
      assert s == [] + [QUOTE] + s[1..];
    } else {
      var b := QuotedByte(s);
      var rest := s[|EscapeByte(b)|..];
      UnquotedByte(b, rest);
      Unquoted(rest);
    }
  }

  lemma UnquotedByte(b: byte, s: Bytes)
    requires Quote(s).Ok?
    ensures Escape([b] + Quote(s).value.text) + [QUOTE] + Quote(s).value.rest
         == EscapeByte(b) + (Escape(Quote(s).value.text) + [QUOTE] + Quote(s).value.rest)
  {
    hide Quote, EscapeByte;
    assert ([b] + Quote(s).value.text)[1..] == Quote(s).value.text;
  }

  // Layouts

  /** The tokens with a gap before each, and a tail after the last. */
  function Layout(tokens: seq<Token>, gaps: seq<Bytes>): Bytes
    requires |gaps| == |tokens| + 1
    decreases |tokens|
  {
    if tokens == [] then gaps[0] else gaps[0] + (TokenBytes(tokens[0]) + Layout(tokens[1..], gaps[1..]))
  }

  ghost predicate GoodGaps(gaps: seq<Bytes>) {
    && gaps != []
    && (forall i | 0 <= i < |gaps| - 1 :: IsGap(gaps[i]))
    && IsTail(gaps[|gaps| - 1])
  }

  ghost predicate AllAscii(tokens: seq<Token>) {
    forall t | t in tokens && t.Text? :: IsAscii(t.text)
  }

  lemma LexText(text: Bytes, s: Bytes)
    requires IsAscii(text)
    ensures var all := [34] + Escape(text) + [34] + s;
            StartsToken(all) && Skip(all) == Ok(all) && Lex(all) == Cons(Text(text), Lex(s))
  {
    hide Skip, Escape, Quote, IsAscii;
    var all := [34] + Escape(text) + [34] + s;
    assert all[0] == 34 && all[1..] == Escape(text) + [QUOTE] + s;
    QuoteEscape(text, s);
    SkipNothing(all);
  }

  lemma LexBrace(b: byte, s: Bytes)
    requires b == 123 || b == 125
    ensures var all := [b] + s;
            StartsToken(all) && Skip(all) == Ok(all) && Lex(all) == Cons(if b == 123 then Open else Close, Lex(s))
  {
    hide Skip;
    var all := [b] + s;
    assert all[1..] == s;
    SkipNothing(all);
  }

  lemma LexToken(token: Token, s: Bytes)
    requires token.Text? ==> IsAscii(token.text)
    ensures StartsToken(TokenBytes(token) + s)
    ensures Skip(TokenBytes(token) + s) == Ok(TokenBytes(token) + s)
    ensures Lex(TokenBytes(token) + s) == Cons(token, Lex(s))
  {
    hide Skip, Escape, Lex, StartsToken, IsAscii;
    match token {
      case Text(text) => LexText(text, s);
      case Open => LexBrace(123, s);
      case Close => LexBrace(125, s);
    }
  }

  lemma {:induction false} LexLayout(tokens: seq<Token>, gaps: seq<Bytes>)
    requires |gaps| == |tokens| + 1 && GoodGaps(gaps) && AllAscii(tokens)
    ensures Lex(Layout(tokens, gaps)) == Ok(tokens)
    decreases |tokens|
  {
    hide Skip, TokenBytes;
    if tokens == [] {
      SkipTail(gaps[0]);
    } else {
      var rest := Layout(tokens[1..], gaps[1..]);
      assert tokens == [tokens[0]] + tokens[1..];
      LexLayout(tokens[1..], gaps[1..]);
      LexToken(tokens[0], rest);
      SkipGap(gaps[0], TokenBytes(tokens[0]) + rest);
    }
  }

  lemma LexedToken(s: Bytes)
    requires StartsToken(s) && Skip(s) == Ok(s) && Lex(s).Ok?
    ensures var tokens := Lex(s).value;
            && tokens != [] && (tokens[0].Text? ==> IsAscii(tokens[0].text))
            && |s| > |TokenBytes(tokens[0])| - 1
            && |TokenBytes(tokens[0])| <= |s|
            && var rest := s[|TokenBytes(tokens[0])|..];
            && s == TokenBytes(tokens[0]) + rest
            && Lex(rest) == Ok(tokens[1..])
  {
    hide Skip;
    var tokens := Lex(s).value;
    if s[0] == QUOTE {
      var q := Quote(s[1..]).value;
      Unquoted(s[1..]);
      assert s == [s[0]] + s[1..];
      assert tokens[0] == Text(q.text);
      assert s == TokenBytes(tokens[0]) + q.rest;
    } else {
      assert s == [s[0]] + s[1..];
    }
  }

  lemma {:induction false} Lexed(s: Bytes) returns (gaps: seq<Bytes>)
    requires Lex(s).Ok?
    ensures var tokens := Lex(s).value;
            && |gaps| == |tokens| + 1 && GoodGaps(gaps) && AllAscii(tokens)
            && s == Layout(tokens, gaps)
    decreases |s|
  {
    hide Skip, TokenBytes;
    var tokens := Lex(s).value;
    var t := Skip(s).value;
    var gap := Skipped(s);
    if t == [] {
      gaps := [gap];
    } else {
      SkipNothing(t);
      LexedToken(t);
      TokenIsNotEmpty(tokens[0]);
      var rest := t[|TokenBytes(tokens[0])|..];
      var others := Lexed(rest);
      gaps := [gap] + others;
      assert gaps[1..] == others;
      assert tokens == [tokens[0]] + tokens[1..];
    }
  }

  lemma TokenIsNotEmpty(token: Token)
    ensures TokenBytes(token) != []
  {
  }

  // The whole parser

  /** `text` is some printed tree with these fields. */
  ghost predicate Prints(text: Bytes, items: Items, gaps: seq<Bytes>) {
    && DistinctKeys({}, items)
    && AllAscii(ItemTokens(items))
    && |gaps| == |ItemTokens(items)| + 1
    && GoodGaps(gaps)
    && text == Layout(ItemTokens(items), gaps)
  }

  /** However a tree is laid out, parsing gives it back. */
  lemma RoundTrip(text: Bytes, items: Items, gaps: seq<Bytes>)
    requires Prints(text, items, gaps)
    ensures Meaning(text) == Ok(Into(map[], items))
  {
    hide GoodGaps, AllAscii, Layout, Lex, ItemTokens, Into;
    var tokens := ItemTokens(items);
    LexLayout(tokens, gaps);
    var none: map<Bytes, Value> := map[];
    assert none.Keys == {};
    ParseItems(items, [], false, none);
    assert tokens + [] == tokens;
  }

  /** A text is accepted if and only if it is a printed tree, and its meaning is that of the tree. */
  lemma AcceptedIff(text: Bytes, fields: map<Bytes, Value>)
    ensures Meaning(text) == Ok(fields)
       <==> exists items, gaps :: Prints(text, items, gaps) && Into(map[], items) == fields
  {
    hide GoodGaps, AllAscii, Layout, Lex, ItemTokens, Into, Parse, DistinctKeys;
    if Meaning(text) == Ok(fields) {
      var gaps := Lexed(text);
      var tokens := Lex(text).value;
      var none: map<Bytes, Value> := map[];
      assert none.Keys == {};
      var items := ParsedItems(tokens, false, none);
      assert tokens == ItemTokens(items);
      assert Prints(text, items, gaps);
    }
    if items, gaps :| Prints(text, items, gaps) && Into(map[], items) == fields {
      RoundTrip(text, items, gaps);
    }
  }
}
