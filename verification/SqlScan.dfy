// The two byte scanners that guard read-only queries, and the quoting of identifiers
// (server/data/schema.go, server/data/ingester.go; delimited identifiers, section 5.2 of ISO/IEC 9075-2).
module SqlScan {
  import opened Strings

  datatype Mode = Normal | Single | Double | Line | Block

  // ----- what a scanner does at one position -----

  predicate Pair(s: string, a: char, b: char) {
    |s| >= 2 && s[0] == a && s[1] == b
  }

  /** How many bytes the scanner takes off the front of s. */
  function Width(s: string, m: Mode): (w: nat)
    requires s != ""
    ensures 1 <= w <= |s|
  {
    match m
    case Normal => if Pair(s, '-', '-') || Pair(s, '/', '*') then 2 else 1
    case Single => if Pair(s, '\'', '\'') then 2 else 1
    case Double => if Pair(s, '"', '"') then 2 else 1
    case Line => 1
    case Block => if Pair(s, '*', '/') then 2 else 1
  }

  function Next(s: string, m: Mode): Mode
    requires s != ""
  {
    match m
    case Normal =>
      if Pair(s, '-', '-') then Line
      else if Pair(s, '/', '*') then Block
      else if s[0] == '\'' then Single
      else if s[0] == '"' then Double
      else Normal
    case Single => if s[0] == '\'' && !Pair(s, '\'', '\'') then Normal else Single
    case Double => if s[0] == '"' && !Pair(s, '"', '"') then Normal else Double
    case Line => if s[0] == '\n' then Normal else Line
    case Block => if Pair(s, '*', '/') then Normal else Block
  }

  /** A byte of plain text, seen as such. */
  predicate Plain(s: string, m: Mode)
    requires s != ""
  {
    m.Normal? && Next(s, m).Normal?
  }

  // ----- the verdict and the stripped text -----

  function Multiple(s: string, m: Mode): bool
    decreases |s|
  {
    s != "" && ((Plain(s, m) && s[0] == ';') || Multiple(s[Width(s, m)..], Next(s, m)))
  }

  function Emitted(s: string, m: Mode): string
    requires s != ""
  {
    if Plain(s, m) then [s[0]]
    else if m.Normal? then (if Width(s, m) == 2 then "" else " ")
    else if Next(s, m).Normal? then " "
    else ""
  }

  function Strip(s: string, m: Mode): string
    decreases |s|
  {
    if s == "" then "" else Emitted(s, m) + Strip(s[Width(s, m)..], Next(s, m))
  }

  function EndMode(s: string, m: Mode): Mode
    decreases |s|
  {
    if s == "" then m else EndMode(s[Width(s, m)..], Next(s, m))
  }

  // ----- the two scanners of the source -----

  lemma Suffix(query: string, i: nat, w: nat)
    requires i + w <= |query|
    ensures query[i..][w..] == query[i + w..]
  {
  }

  method HasMultipleStatements(query: string) returns (r: bool)
    ensures r == Multiple(query, Normal)
  {
    var inSingleQuote, inDoubleQuote, inLineComment, inBlockComment := false, false, false, false;
    ghost var m := Normal;
    var i := 0;
    assert query[0..] == query;
    while i < |query|
      invariant i <= |query|
      invariant inSingleQuote == m.Single? && inDoubleQuote == m.Double? && inLineComment == m.Line? && inBlockComment == m.Block?
      invariant Multiple(query, Normal) == Multiple(query[i..], m)
    {
      var ch := query[i];
      ghost var rest := query[i..];
      ghost var next := i + Width(rest, m);
      Suffix(query, i, Width(rest, m));
      m := Next(rest, m);
      if inLineComment {
        if ch == '\n' {
          inLineComment := false;
        }
      } else if inBlockComment {
        if ch == '*' && i + 1 < |query| && query[i + 1] == '/' {
          inBlockComment := false;
          i := i + 1;
        }
      } else if inSingleQuote {
        if ch == '\'' {
          if i + 1 < |query| && query[i + 1] == '\'' {
            i := i + 1;
          } else {
            inSingleQuote := false;
          }
        }
      } else if inDoubleQuote {
        if ch == '"' {
          if i + 1 < |query| && query[i + 1] == '"' {
            i := i + 1;
          } else {
            inDoubleQuote := false;
          }
        }
      } else if ch == '-' && i + 1 < |query| && query[i + 1] == '-' {
        inLineComment := true;
        i := i + 1;
      } else if ch == '/' && i + 1 < |query| && query[i + 1] == '*' {
        inBlockComment := true;
        i := i + 1;
      } else if ch == '\'' {
        inSingleQuote := true;
      } else if ch == '"' {
        inDoubleQuote := true;
      } else if ch == ';' {
        return true;
      }
      i := i + 1;
      assert i == next;
    }
    return false;
  }

  method StripSQLStringsAndComments(query: string) returns (b: string)
    ensures b == Strip(query, Normal)
  {
    b := "";
    var inSingleQuote, inDoubleQuote, inLineComment, inBlockComment := false, false, false, false;
    ghost var m := Normal;
    var i := 0;
    assert query[0..] == query;
    while i < |query|
      invariant i <= |query|
      invariant inSingleQuote == m.Single? && inDoubleQuote == m.Double? && inLineComment == m.Line? && inBlockComment == m.Block?
      invariant b + Strip(query[i..], m) == Strip(query, Normal)
    {
      var ch := query[i];
      ghost var rest := query[i..];
      ghost var next := i + Width(rest, m);
      Suffix(query, i, Width(rest, m));
      EmittedFirst(b, rest, m);
      m := Next(rest, m);
      if inLineComment {
        if ch == '\n' {
          inLineComment := false;
          b := b + " ";
        }
      } else if inBlockComment {
        if ch == '*' && i + 1 < |query| && query[i + 1] == '/' {
          inBlockComment := false;
          i := i + 1;
          b := b + " ";
        }
      } else if inSingleQuote {
        if ch == '\'' {
          if i + 1 < |query| && query[i + 1] == '\'' {
            i := i + 1;
          } else {
            inSingleQuote := false;
            b := b + " ";
          }
        }
      } else if inDoubleQuote {
        if ch == '"' {
          if i + 1 < |query| && query[i + 1] == '"' {
            i := i + 1;
          } else {
            inDoubleQuote := false;
            b := b + " ";
          }
        }
      } else if ch == '-' && i + 1 < |query| && query[i + 1] == '-' {
        inLineComment := true;
        i := i + 1;
      } else if ch == '/' && i + 1 < |query| && query[i + 1] == '*' {
        inBlockComment := true;
        i := i + 1;
      } else if ch == '\'' {
        inSingleQuote := true;
        b := b + " ";
      } else if ch == '"' {
        inDoubleQuote := true;
        b := b + " ";
      } else {
        b := b + [ch];
      }
      i := i + 1;
      assert i == next;
    }
  }

  lemma EmittedFirst(b: string, s: string, m: Mode)
    requires s != ""
    ensures b + Strip(s, m) == (if Emitted(s, m) == "" then b else b + Emitted(s, m)) + Strip(s[Width(s, m)..], Next(s, m))
  {
    Joined(b, Emitted(s, m), Strip(s[Width(s, m)..], Next(s, m)));
  }

  lemma Joined(a: string, b: string, c: string)
    ensures a + (b + c) == (if b == "" then a else a + b) + c
  {
  }

  // ----- the scanners agree -----

  /** A query has multiple statements exactly when its stripped form contains a semicolon. */
  lemma {:induction false} ScannersAgree(s: string, m: Mode)
    ensures Multiple(s, m) <==> ';' in Strip(s, m)
    decreases |s|
  {
    if s != "" {
      ScannersAgree(s[Width(s, m)..], Next(s, m));
    }
  }

  /** No quotes and no comment openers. */
  predicate Clean(s: string) {
    && (forall i :: 0 <= i < |s| ==> s[i] != '\'' && s[i] != '"')
    && (forall i, j :: 0 <= i && j == i + 1 < |s| ==> !(s[i] == '-' && s[j] == '-') && !(s[i] == '/' && s[j] == '*'))
  }

  /** Stripped text begins with a space, unless it begins with the very byte the scanner stands at. */
  lemma {:induction false} StripHead(s: string, m: Mode)
    ensures Strip(s, m) != "" ==> Strip(s, m)[0] == ' ' || (m.Normal? && s != "" && Strip(s, m)[0] == s[0])
    decreases |s|
  {
    if s != "" {
      StripHead(s[Width(s, m)..], Next(s, m));
    }
  }

  lemma {:induction false} StripIsClean(s: string, m: Mode)
    ensures Clean(Strip(s, m))
    decreases |s|
  {
    if s != "" {
      var rest := s[Width(s, m)..];
      StripIsClean(rest, Next(s, m));
      StripHead(rest, Next(s, m));
      var e, t := Emitted(s, m), Strip(rest, Next(s, m));
      if e != "" {
        CleanCons(e[0], t);
        assert e + t == [e[0]] + t;
      }
    }
  }

  lemma CleanCons(c: char, t: string)
    requires Clean(t) && c != '\'' && c != '"'
    requires t != "" ==> !(c == '-' && t[0] == '-') && !(c == '/' && t[0] == '*')
    ensures Clean([c] + t)
  {
  }

  lemma {:induction false} CleanStays(s: string)
    requires Clean(s)
    ensures Strip(s, Normal) == s
    decreases |s|
  {
    if s != "" {
      CleanStays(s[1..]);
      assert s == [s[0]] + s[1..];
    }
  }

  /** Stripping twice is stripping once. */
  lemma StripIdempotent(s: string)
    ensures Strip(Strip(s, Normal), Normal) == Strip(s, Normal)
  {
    StripIsClean(s, Normal);
    CleanStays(Strip(s, Normal));
  }

  // ----- quoting -----

  datatype Quoted = Quoted(text: string) | Refused

  /** strings.ReplaceAll(s, q, qq) for a single byte q. */
  function Doubled(s: string, q: char): string {
    if s == "" then "" else (if s[0] == q then [q, q] else [s[0]]) + Doubled(s[1..], q)
  }

  /** strings.ReplaceAll(s, qq, q): left to right, without overlap. */
  function Undoubled(s: string, q: char): string {
    if s == "" then ""
    else if Pair(s, q, q) then [q] + Undoubled(s[2..], q)
    else [s[0]] + Undoubled(s[1..], q)
  }

  function Quote(name: string): string {
    "\"" + Doubled(name, '"') + "\""
  }

  function QuoteSQLiteIdentifier(name: string): Quoted {
    if name == "" || 0 as char in name then Refused else Quoted(Quote(name))
  }

  function UnquoteSQLIdentifier(part: string): string {
    var trimmed := TrimSpace(part);
    if |trimmed| >= 2 && trimmed[0] == '"' && trimmed[|trimmed| - 1] == '"' then Undoubled(trimmed[1..|trimmed| - 1], '"')
    else if |trimmed| >= 2 && trimmed[0] == '`' && trimmed[|trimmed| - 1] == '`' then Undoubled(trimmed[1..|trimmed| - 1], '`')
    else trimmed
  }

  lemma {:induction false} UndoubledDoubled(s: string, q: char)
    ensures Undoubled(Doubled(s, q), q) == s
  {
    if s != "" {
      UndoubledDoubled(s[1..], q);
      var rest := Doubled(s[1..], q);
      if s[0] == q {
        assert ([q, q] + rest)[2..] == rest;
      } else {
        assert ([s[0]] + rest)[1..] == rest;
      }
    }
  }

  /** Unquoting a quoted identifier gives the name back, for every name that can be quoted. */
  lemma QuoteRoundTrip(name: string)
    requires QuoteSQLiteIdentifier(name).Quoted?
    ensures UnquoteSQLIdentifier(QuoteSQLiteIdentifier(name).text) == name
  {
    var q := Quote(name);
    TrimKeeps(q);
    assert q[1..|q| - 1] == Doubled(name, '"');
    UndoubledDoubled(name, '"');
  }

  /** A name is refused exactly if it is empty or holds a NUL. */
  lemma QuoteRefuses(name: string)
    ensures QuoteSQLiteIdentifier(name).Refused? <==> name == "" || exists c :: c in name && c as int == 0
  {
  }

  /** What stands between back quotes is unquoted the same way, and what is not quoted is only trimmed. */
  lemma BacktickRoundTrip(name: string, part: string)
    ensures UnquoteSQLIdentifier("`" + Doubled(name, '`') + "`") == name
    ensures part != "" && TrimSpace(part) == part && part[0] != '"' && part[0] != '`' ==> UnquoteSQLIdentifier(part) == part
  {
    var q := "`" + Doubled(name, '`') + "`";
    TrimKeeps(q);
    assert q[1..|q| - 1] == Doubled(name, '`');
    UndoubledDoubled(name, '`');
  }

  // ----- what is quoted or commented out is not seen -----

  /** Strings and delimited identifiers: each has its mode and its quote. */
  predicate QuotesIn(q: char, m: Mode) {
    (m == Single && q == '\'') || (m == Double && q == '"')
  }

  /** A text between quotes, with its own quotes doubled. */
  function Enclosed(text: string, q: char): string {
    [q] + (Doubled(text, q) + [q])
  }

  /** From within a quoted text, both texts scan alike. */
  ghost predicate Alike(a: string, b: string, m: Mode) {
    forall x, y | x == a && y == b ::
      Multiple(x, m) == Multiple(y, m) && Strip(x, m) == Strip(y, m) && EndMode(x, m) == EndMode(y, m)
  }

  lemma PassesByte(c: char, rest: string, q: char, m: Mode)
    requires QuotesIn(q, m) && c != q
    ensures Alike([c] + rest, rest, m)
  {
    assert ([c] + rest)[1..] == rest;
  }

  lemma PassesPair(rest: string, q: char, m: Mode)
    requires QuotesIn(q, m)
    ensures Alike([q, q] + rest, rest, m)
  {
    assert ([q, q] + rest)[2..] == rest;
  }

  /** The doubled text is passed over, whatever it holds. */
  lemma {:induction false} PassesDoubled(text: string, tail: string, q: char, m: Mode)
    requires QuotesIn(q, m)
    ensures Alike(Doubled(text, q) + tail, tail, m)
  {
    if text == "" {
      assert Doubled(text, q) + tail == tail;
    } else {
      PassesDoubled(text[1..], tail, q, m);
      var rest := Doubled(text[1..], q) + tail;
      if text[0] == q {
        PassesPair(rest, q, m);
        assert Doubled(text, q) + tail == [q, q] + rest;
      } else {
        PassesByte(text[0], rest, q, m);
        assert Doubled(text, q) + tail == [text[0]] + rest;
      }
      AlikeChain(Doubled(text, q) + tail, rest, tail, m);
    }
  }

  lemma AlikeChain(a: string, b: string, c: string, m: Mode)
    requires Alike(a, b, m) && Alike(b, c, m)
    ensures Alike(a, c, m)
  {
    assert Multiple(a, m) == Multiple(b, m) == Multiple(c, m);
  }

  lemma UnfoldAlike(a: string, b: string, m: Mode)
    requires Alike(a, b, m)
    ensures Multiple(a, m) == Multiple(b, m) && Strip(a, m) == Strip(b, m) && EndMode(a, m) == EndMode(b, m)
  {
  }

  lemma OnlyClosing(q: char, m: Mode)
    requires QuotesIn(q, m)
    ensures EndMode([q], m) == Normal && Strip([q], m) == " " && !Multiple([q], m)
  {
    assert [q][1..] == "";
  }

  lemma OpensQuote(body: string, q: char, m: Mode)
    requires QuotesIn(q, m)
    ensures EndMode([q] + body, Normal) == EndMode(body, m)
    ensures Strip([q] + body, Normal) == " " + Strip(body, m)
    ensures Multiple([q] + body, Normal) == Multiple(body, m)
  {
    assert ([q] + body)[1..] == body;
  }

  /** The closing quote and what follows, from within: the same as what follows by itself. */
  lemma LeavesQuote(post: string, q: char, m: Mode)
    requires QuotesIn(q, m)
    ensures Multiple([q] + post, m) == Multiple(post, Normal) && EndMode([q] + post, m) == EndMode(post, Normal)
  {
    var s := [q] + post;
    assert s[1..] == post && (post != "" ==> s[2..] == post[1..]);
  }

  /**
   * The scanner goes into a string or a delimited identifier and comes back to normal exactly at its
   * end, having seen none of it, whatever it holds.
   */
  lemma EnclosedIsOpaque(text: string, q: char, m: Mode)
    requires QuotesIn(q, m)
    ensures var s := Enclosed(text, q); EndMode(s, Normal) == Normal && Strip(s, Normal) == "  " && !Multiple(s, Normal)
  {
    var body := Doubled(text, q) + [q];
    PassesDoubled(text, [q], q, m);
    UnfoldAlike(body, [q], m);
    OnlyClosing(q, m);
    OpensQuote(body, q, m);
  }

  /** And it goes on with what follows as if it started there. */
  lemma EnclosedThenText(text: string, q: char, m: Mode, post: string)
    requires QuotesIn(q, m)
    ensures Multiple(Enclosed(text, q) + post, Normal) == Multiple(post, Normal)
    ensures EndMode(Enclosed(text, q) + post, Normal) == EndMode(post, Normal)
  {
    var tail := [q] + post;
    var body := Doubled(text, q) + tail;
    assert Enclosed(text, q) + post == [q] + body;
    PassesDoubled(text, tail, q, m);
    UnfoldAlike(body, tail, m);
    OpensQuote(body, q, m);
    LeavesQuote(post, q, m);
  }

  lemma QuoteIsEnclosed(name: string)
    ensures Quote(name) == Enclosed(name, '"')
  {
  }

  /** A string constant in a query: its own quotes are doubled. */
  lemma StringIsOpaque(text: string, post: string)
    ensures var s := "'" + Doubled(text, '\'') + "'";
            && EndMode(s, Normal) == Normal && Strip(s, Normal) == "  " && !Multiple(s, Normal)
            && (Multiple(s + post, Normal) <==> Multiple(post, Normal))
  {
    assert "'" + Doubled(text, '\'') + "'" == Enclosed(text, '\'');
    EnclosedIsOpaque(text, '\'', Single);
    EnclosedThenText(text, '\'', Single, post);
  }

  /** A delimited identifier in a query. */
  lemma QuoteIsOpaque(name: string)
    ensures EndMode(Quote(name), Normal) == Normal && Strip(Quote(name), Normal) == "  " && !Multiple(Quote(name), Normal)
  {
    QuoteIsEnclosed(name);
    EnclosedIsOpaque(name, '"', Double);
  }

  lemma QuoteThenText(name: string, post: string)
    ensures Multiple(Quote(name) + post, Normal) == Multiple(post, Normal)
  {
    QuoteIsEnclosed(name);
    EnclosedThenText(name, '"', Double, post);
  }

  // ----- comments -----

  lemma PassesLine(c: char, rest: string)
    requires c != '\n'
    ensures Alike([c] + rest, rest, Line)
  {
    assert ([c] + rest)[1..] == rest;
  }

  lemma {:induction false} InLine(text: string, tail: string)
    requires '\n' !in text
    ensures Alike(text + tail, tail, Line)
  {
    if text == "" {
      assert text + tail == tail;
    } else {
      assert text == [text[0]] + text[1..];
      InLine(text[1..], tail);
      PassesLine(text[0], text[1..] + tail);
      assert text + tail == [text[0]] + (text[1..] + tail);
      AlikeChain(text + tail, text[1..] + tail, tail, Line);
    }
  }

  /** No comment closer stands in the text. */
  predicate Open(text: string) {
    forall i, j :: 0 <= i && j == i + 1 < |text| ==> !(text[i] == '*' && text[j] == '/')
  }

  lemma PassesBlock(c: char, rest: string)
    requires !(c == '*' && rest != "" && rest[0] == '/')
    ensures Alike([c] + rest, rest, Block)
  {
    assert ([c] + rest)[1..] == rest;
  }

  lemma OpenTail(text: string)
    requires Open(text) && text != ""
    ensures Open(text[1..])
  {
    assert forall i :: 0 <= i < |text[1..]| ==> text[1..][i] == text[i + 1];
  }

  lemma {:induction false} InBlock(text: string, tail: string)
    requires Open(text) && (tail == "" || tail[0] == '*')
    ensures Alike(text + tail, tail, Block)
  {
    if text == "" {
      assert text + tail == tail;
    } else {
      OpenTail(text);
      InBlock(text[1..], tail);
      PassesBlock(text[0], text[1..] + tail);
      assert text + tail == [text[0]] + (text[1..] + tail);
      AlikeChain(text + tail, text[1..] + tail, tail, Block);
    }
  }

  lemma OpensComment(body: string)
    ensures Multiple("--" + body, Normal) == Multiple(body, Line) && Strip("--" + body, Normal) == Strip(body, Line)
    ensures EndMode("--" + body, Normal) == EndMode(body, Line)
    ensures Multiple("/*" + body, Normal) == Multiple(body, Block) && Strip("/*" + body, Normal) == Strip(body, Block)
    ensures EndMode("/*" + body, Normal) == EndMode(body, Block)
  {
    assert ("--" + body)[2..] == body && ("/*" + body)[2..] == body;
  }

  lemma ClosesComment(post: string)
    ensures Multiple("\n" + post, Line) == Multiple(post, Normal) && Strip("\n" + post, Line) == " " + Strip(post, Normal)
    ensures EndMode("\n" + post, Line) == EndMode(post, Normal)
    ensures Multiple("*/" + post, Block) == Multiple(post, Normal) && Strip("*/" + post, Block) == " " + Strip(post, Normal)
    ensures EndMode("*/" + post, Block) == EndMode(post, Normal)
  {
    assert ("\n" + post)[1..] == post && ("*/" + post)[2..] == post;
  }

  /** A line comment is not seen up to its line break, and what follows is scanned as by itself; without a break it never ends. */
  lemma LineCommentIsOpaque(text: string, post: string)
    requires '\n' !in text
    ensures var s := "--" + text + "\n" + post;
            && (Multiple(s, Normal) <==> Multiple(post, Normal))
            && Strip(s, Normal) == " " + Strip(post, Normal) && EndMode(s, Normal) == EndMode(post, Normal)
    ensures EndMode("--" + text, Normal) == Line && !Multiple("--" + text, Normal) && Strip("--" + text, Normal) == ""
  {
    var tail := "\n" + post;
    CommentSplit("--", text, "\n", post);
    OpensComment(text + tail);
    InLine(text, tail);
    UnfoldAlike(text + tail, tail, Line);
    ClosesComment(post);
    OpensComment(text);
    InLine(text, "");
    assert text + "" == text;
    UnfoldAlike(text, "", Line);
  }

  /** A block comment is not seen up to its first closer, and what follows is scanned as by itself; without a closer it never ends. */
  lemma BlockCommentIsOpaque(text: string, post: string)
    requires Open(text)
    ensures var s := "/*" + text + "*/" + post;
            && (Multiple(s, Normal) <==> Multiple(post, Normal))
            && Strip(s, Normal) == " " + Strip(post, Normal) && EndMode(s, Normal) == EndMode(post, Normal)
    ensures EndMode("/*" + text, Normal) == Block && !Multiple("/*" + text, Normal) && Strip("/*" + text, Normal) == ""
  {
    BlockCommentCloses(text, post);
    BlockCommentStays(text);
  }

  lemma BlockCommentCloses(text: string, post: string)
    requires Open(text)
    ensures var s := "/*" + text + "*/" + post;
            && (Multiple(s, Normal) <==> Multiple(post, Normal))
            && Strip(s, Normal) == " " + Strip(post, Normal) && EndMode(s, Normal) == EndMode(post, Normal)
  {
    var tail := "*/" + post;
    CommentSplit("/*", text, "*/", post);
    OpensComment(text + tail);
    InBlock(text, tail);
    UnfoldAlike(text + tail, tail, Block);
    ClosesComment(post);
  }

  lemma CommentSplit(open: string, text: string, close: string, post: string)
    ensures open + text + close + post == open + (text + (close + post))
  {
  }

  lemma BlockCommentStays(text: string)
    requires Open(text)
    ensures EndMode("/*" + text, Normal) == Block && !Multiple("/*" + text, Normal) && Strip("/*" + text, Normal) == ""
  {
    OpensComment(text);
    InBlock(text, "");
    assert text + "" == text;
    UnfoldAlike(text, "", Block);
  }

  // ----- quoted identifiers inside a query -----

  /** What follows pre changes nothing of the scanner's first move on it, but for a double quote that ends it. */
  lemma SameMove(pre: string, m: Mode, tail: string)
    requires pre != "" && tail != "" && tail[0] == '"' && !(m.Double? && pre == "\"")
    ensures var s := pre + tail;
            Width(s, m) == Width(pre, m) && Next(s, m) == Next(pre, m) && Plain(s, m) == Plain(pre, m) && s[0] == pre[0]
  {
  }

  /** What follows pre is scanned as if the scan started there, in the mode pre ends in. */
  lemma {:induction false} ScanThrough(pre: string, m: Mode, tail: string)
    requires tail != "" && tail[0] == '"'
    ensures Multiple(pre + tail, m) <==> Multiple(pre, m) || Multiple(tail, EndMode(pre, m))
    decreases |pre|
  {
    var s := pre + tail;
    if pre == "" {
      assert s == tail;
    } else if m.Double? && pre == "\"" {
      assert s[2..] == tail[1..] && pre[1..] == "";
    } else {
      SameMove(pre, m, tail);
      assert s[Width(pre, m)..] == pre[Width(pre, m)..] + tail;
      ScanThrough(pre[Width(pre, m)..], Next(pre, m), tail);
    }
  }

  /** The text with the name quoted in it gets the verdict of the text around it. */
  predicate KeepsVerdict(pre: string, name: string, post: string) {
    Multiple(pre + Quote(name) + post, Normal) <==> Multiple(pre, Normal) || Multiple(post, Normal)
  }

  lemma EmbeddedScan(pre: string, name: string, post: string)
    ensures Multiple(pre + Quote(name) + post, Normal) <==> Multiple(pre, Normal) || Multiple(Quote(name) + post, EndMode(pre, Normal))
  {
    assert pre + Quote(name) + post == pre + (Quote(name) + post);
    ScanThrough(pre, Normal, Quote(name) + post);
  }

  /**
   * Putting a quoted identifier where the scanner is in normal text never changes the verdict of the
   * text around it, whatever the name holds and whatever follows.
   */
  lemma EmbeddingKeepsVerdict(pre: string, name: string, post: string)
    requires EndMode(pre, Normal) == Normal
    ensures KeepsVerdict(pre, name, post)
  {
    EmbeddedScan(pre, name, post);
    QuoteThenText(name, post);
  }

  /** A name that gets out of each mode but the normal one, with a semicolon after. */
  function Escaping(m: Mode): string {
    match m
    case Normal => "x"
    case Single => "';"
    case Double => ";"
    case Line => "\n;"
    case Block => "*/;"
  }

  /** What the name is between its quotes: it holds no double quote. */
  lemma EscapingQuoted(m: Mode)
    ensures QuoteSQLiteIdentifier(Escaping(m)).Quoted? && Quote(Escaping(m)) == "\"" + Escaping(m) + "\""
  {
    PlainDoubled(Escaping(m));
  }

  lemma {:induction false} PlainDoubled(s: string)
    requires '"' !in s
    ensures Doubled(s, '"') == s
  {
    if s != "" {
      PlainDoubled(s[1..]);
      assert s == [s[0]] + s[1..];
    }
  }

  lemma OneStep(c: char, rest: string, m: Mode, n: Mode)
    requires Width([c] + rest, m) == 1 && Next([c] + rest, m) == n
    ensures Multiple(rest, n) ==> Multiple([c] + rest, m)
  {
    assert ([c] + rest)[1..] == rest;
  }

  /** Scanned in the mode it gets out of, the quoted name shows its semicolon. */
  lemma Escapes(m: Mode)
    requires m != Normal
    ensures Multiple("\"" + Escaping(m) + "\"", m)
  {
    assert Multiple(";\"", Normal);
    match m
    case Double =>
      OneStep('"', ";\"", Double, Normal);
      assert "\"" + Escaping(m) + "\"" == ['"'] + ";\"";
    case Single =>
      OneStep('\'', ";\"", Single, Normal);
      OneStep('"', "';\"", Single, Single);
      assert "\"" + Escaping(m) + "\"" == ['"'] + (['\''] + ";\"");
    case Line =>
      OneStep('\n', ";\"", Line, Normal);
      OneStep('"', "\n;\"", Line, Line);
      assert "\"" + Escaping(m) + "\"" == ['"'] + (['\n'] + ";\"");
    case Block =>
      assert "*/;\""[2..] == ";\"";
      assert Multiple("*/;\"", Block);
      OneStep('"', "*/;\"", Block, Block);
      assert "\"" + Escaping(m) + "\"" == ['"'] + "*/;\"";
  }

  /** Inside a comment or a string some name that can be quoted does change the verdict. */
  lemma EmbeddingElsewhere(pre: string) returns (name: string)
    requires EndMode(pre, Normal) != Normal && !Multiple(pre, Normal)
    ensures QuoteSQLiteIdentifier(name).Quoted? && !KeepsVerdict(pre, name, "")
  {
    var m := EndMode(pre, Normal);
    name := Escaping(m);
    EscapingQuoted(m);
    Escapes(m);
    EmbeddedScan(pre, name, "");
    assert Quote(name) + "" == Quote(name);
  }

  ghost predicate SafeFor(pre: string) {
    forall name, post :: QuoteSQLiteIdentifier(name).Quoted? ==> KeepsVerdict(pre, name, post)
  }

  /**
   * A text is a safe place for every quoted identifier, whatever follows, exactly when the scanner is
   * in normal text at its end or has already seen several statements.
   */
  lemma EmbeddingSafeExactly(pre: string)
    ensures SafeFor(pre) <==> EndMode(pre, Normal) == Normal || Multiple(pre, Normal)
  {
    if EndMode(pre, Normal) == Normal || Multiple(pre, Normal) {
      forall name, post ensures KeepsVerdict(pre, name, post) {
        EmbeddedScan(pre, name, post);
        if EndMode(pre, Normal) == Normal {
          EmbeddingKeepsVerdict(pre, name, post);
        }
      }
    } else {
      var _ := EmbeddingElsewhere(pre);
    }
  }

  // ----- admitting a query -----

  datatype Admission = Admitted(query: string) | Rejected

  /** strings.ToUpper with the given mapping of runes. */
  function Upper(s: string, upper: char -> char): string {
    seq(|s|, i requires 0 <= i < |s| => upper(s[i]))
  }

  /** The text begins, after space, with the word, whatever its case. */
  ghost predicate Begins(text: string, word: string, upper: char -> char) {
    FirstWord(Upper(TrimSpace(text), upper), word)
  }

  /** The query is admitted as it is, or not at all. */
  method NormalizeReadOnlyQuery(query: string, upper: char -> char) returns (r: Admission)
    ensures r.Admitted? <==>
              && query != "" && TrimSpace(query) == query
              && ';' !in Strip(query, Normal)
              && (Begins(Strip(query, Normal), "SELECT", upper) || Begins(Strip(query, Normal), "WITH", upper))
    ensures r.Admitted? ==> r.query == query
  {
    ScannersAgree(query, Normal);
    if TrimSpace(query) == "" {
      return Rejected;
    }
    if query != TrimSpace(query) {
      return Rejected;
    }
    var multiple := HasMultipleStatements(query);
    if multiple {
      return Rejected;
    }
    var inspection := StripSQLStringsAndComments(query);
    var text := Upper(TrimSpace(inspection), upper);
    var first := FirstField(text);
    FirstFieldIs(text, "SELECT");
    FirstFieldIs(text, "WITH");
    if first != "SELECT" && first != "WITH" {
      return Rejected;
    }
    return Admitted(query);
  }
}
