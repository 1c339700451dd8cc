/**
 * The two line-oriented files the script reads: `tokens.txt` (`readTokensFromFile`) and
 * `proxy.txt` (`loadProxies`). Both split the file on '\n', trim every line and drop blank lines
 * and lines starting with '#'. A missing file reads as no lines.
 */
module LineFiles {
  import opened Options
  import opened Text

  /** A line that survives `.filter(line => line && !line.startsWith('#'))` after trimming. */
  predicate IsCleanLine(t: string) {
    t != [] && t[0] != '#' && Trimmed(t)
  }

  /** A token that can be written one per line and read back unchanged. */
  predicate IsStorableToken(t: string) {
    IsCleanLine(t) && '\n' !in t
  }

  /** What one raw line contributes: its trim, unless that is empty or starts with '#'. */
  function Keep(line: string): seq<string> {
    var t := Trim(line);
    if t != [] && t[0] != '#' then [t] else []
  }

  predicate AllClean(lines: seq<string>) {
    forall i :: 0 <= i < |lines| ==> IsCleanLine(lines[i])
  }

  predicate NoNewlines(lines: seq<string>) {
    forall i :: 0 <= i < |lines| ==> '\n' !in lines[i]
  }

  /** One line yields at most one kept line, which is clean and keeps the line's lack of newlines. */
  lemma KeepFacts(line: string)
    ensures |Keep(line)| <= 1 && AllClean(Keep(line))
    ensures '\n' !in line ==> NoNewlines(Keep(line))
    ensures IsCleanLine(line) ==> Keep(line) == [line]
  {
    TrimmedTrim(line);
    if '\n' !in line {
      TrimExcludes(line, '\n');
    }
  }

  /** `.map(line => line.trim()).filter(line => line && !line.startsWith('#'))` */
  function Clean(lines: seq<string>): seq<string>
    decreases |lines|
  {
    if lines == [] then [] else Keep(lines[0]) + Clean(lines[1..])
  }

  /** The kept lines are at most as many as the lines, all clean, and newline-free when the lines are. */
  lemma {:induction false} CleanFacts(lines: seq<string>)
    ensures |Clean(lines)| <= |lines|
    ensures AllClean(Clean(lines))
    ensures NoNewlines(lines) ==> NoNewlines(Clean(lines))
    decreases |lines|
  {
    if lines != [] {
      KeepFacts(lines[0]);
      CleanFacts(lines[1..]);
      assert NoNewlines(lines) ==> NoNewlines(lines[1..]) && '\n' !in lines[0];
      AppendKept(Keep(lines[0]), Clean(lines[1..]));
    }
  }

  lemma AppendKept(a: seq<string>, b: seq<string>)
    ensures AllClean(a) && AllClean(b) ==> AllClean(a + b)
    ensures NoNewlines(a) && NoNewlines(b) ==> NoNewlines(a + b)
  {
    if AllClean(a) && AllClean(b) {
      forall i | 0 <= i < |a + b| ensures IsCleanLine((a + b)[i]) {
        if i < |a| { assert (a + b)[i] == a[i]; } else { assert (a + b)[i] == b[i - |a|]; }
      }
    }
    if NoNewlines(a) && NoNewlines(b) {
      forall i | 0 <= i < |a + b| ensures '\n' !in (a + b)[i] {
        if i < |a| { assert (a + b)[i] == a[i]; } else { assert (a + b)[i] == b[i - |a|]; }
      }
    }
  }

  /** The kept lines of a file's content. */
  function CleanLines(content: string): (kept: seq<string>)
    ensures AllClean(kept) && NoNewlines(kept)
  {
    SplitPiecesLackSep(content, '\n');
    CleanFacts(Split(content, '\n'));
    Clean(Split(content, '\n'))
  }

  /** `readTokensFromFile`: the kept lines of `tokens.txt`, or none when the file does not exist. */
  function ReadTokens(file: Option<string>): seq<string> {
    match file
    case None => []
    case Some(content) => CleanLines(content)
  }

  /** Cleaning is done line by line: cleaning a concatenation cleans each part. */
  lemma {:induction false} CleanAppend(a: seq<string>, b: seq<string>)
    ensures Clean(a + b) == Clean(a) + Clean(b)
    decreases |a|
  {
    if a == [] {
      assert a + b == b;
    } else {
      assert (a + b)[0] == a[0];
      assert (a + b)[1..] == a[1..] + b;
      CleanAppend(a[1..], b);
      assert Clean(a + b) == Keep(a[0]) + Clean(a[1..] + b);
      assert Clean(a) == Keep(a[0]) + Clean(a[1..]);
    }
  }

  /** Lines already clean are kept, all of them and in order. */
  lemma {:induction false} CleanKeepsCleanLines(lines: seq<string>)
    requires AllClean(lines)
    ensures Clean(lines) == lines
    decreases |lines|
  {
    if lines != [] {
      KeepFacts(lines[0]);
      CleanKeepsCleanLines(lines[1..]);
      assert lines == [lines[0]] + lines[1..];
    }
  }

  /** File order: the lines kept from `a + "\n" + b` are those kept from `a` followed by those kept from `b`. */
  lemma CleanLinesConcat(a: string, b: string)
    ensures CleanLines(a + "\n" + b) == CleanLines(a) + CleanLines(b)
  {
    SplitAppend(a, b, '\n');
    CleanAppend(Split(a, '\n'), Split(b, '\n'));
  }

  /**
   * Writing tokens with `tokens.join('\n')` and reading the file back with `readTokensFromFile`
   * gives the same tokens in the same order, provided every token is non-empty, has no
   * surrounding white space, contains no newline and does not start with '#'.
   */
  lemma TokenFileRoundTrip(tokens: seq<string>)
    requires forall i :: 0 <= i < |tokens| ==> IsStorableToken(tokens[i])
    ensures ReadTokens(Some(Join(tokens, '\n'))) == tokens
  {
    if tokens == [] {
      assert Split([], '\n') == [[]];
    } else {
      SplitJoin(tokens, '\n');
      CleanKeepsCleanLines(tokens);
    }
  }

  /** A proxy descriptor `{ url, type }`. */
  datatype Proxy = Proxy(url: string, kind: string)

  /**
   * `const [url, type = 'http'] = proxy.split('#').map(p => p.trim()); { url, type: type.toLowerCase() }`:
   * the url is the trimmed text before the first '#', the type the trimmed and lowercased text between
   * the first and the second '#', and `http` when the line has no '#'.
   */
  function ParseProxy(line: string): Proxy {
    var fields := Split(line, '#');
    Proxy(Trim(fields[0]), if |fields| >= 2 then Lower(Trim(fields[1])) else "http")
  }

  /** A usable proxy url: non-empty, without '#', without surrounding white space. */
  predicate GoodUrl(url: string) {
    url != [] && '#' !in url && Trimmed(url)
  }

  /** The url of a kept line is non-empty, '#'-free and trimmed, and starts where the line starts. */
  lemma ParseProxyUrl(line: string)
    requires IsCleanLine(line)
    ensures GoodUrl(ParseProxy(line).url) && ParseProxy(line).url[0] == line[0]
  {
    var first := Split(line, '#')[0];
    TrimmedTrim(first);
    SplitPiecesLackSep(line, '#');
    TrimExcludes(first, '#');
    SplitHead(line, '#');
    TrimKeepsHead(first);
  }

  /** A line without '#' is all url, and its type defaults to `http`. */
  lemma ProxyWithoutType(line: string)
    requires '#' !in line
    ensures ParseProxy(line) == Proxy(Trim(line), "http")
  {
    SplitNoSep(line, '#');
  }

  /**
   * A line `url#type` or `url#type#...`: the type is the text between the first two '#', trimmed
   * and lowercased; an empty type (`url#`) stays empty rather than defaulting to `http`.
   */
  lemma ProxyWithType(url: string, kind: string, more: string)
    requires '#' !in url && '#' !in kind
    requires more == [] || more[0] == '#'
    ensures ParseProxy(url + "#" + kind + more) == Proxy(Trim(url), Lower(Trim(kind)))
  {
    var line := url + "#" + kind + more;
    assert line == url + ['#'] + (kind + more);
    SplitAppend(url, kind + more, '#');
    SplitNoSep(url, '#');
    if more == [] {
      SplitNoSep(kind, '#');
      assert kind + more == kind;
    } else {
      assert kind + more == kind + ['#'] + more[1..];
      SplitAppend(kind, more[1..], '#');
      SplitNoSep(kind, '#');
    }
  }

  /** `proxyList.map(...)`: one descriptor per line, in order. */
  function ParseProxies(lines: seq<string>): (proxies: seq<Proxy>)
    ensures |proxies| == |lines|
    ensures AllClean(lines) ==> forall i :: 0 <= i < |proxies| ==> GoodUrl(proxies[i].url)
    decreases |lines|
  {
    if lines == [] then []
    else
      if IsCleanLine(lines[0]) then ParseProxyUrl(lines[0]); [ParseProxy(lines[0])] + ParseProxies(lines[1..])
      else [ParseProxy(lines[0])] + ParseProxies(lines[1..])
  }

  lemma {:induction false} ParseProxiesAppend(a: seq<string>, b: seq<string>)
    ensures ParseProxies(a + b) == ParseProxies(a) + ParseProxies(b)
    decreases |a|
  {
    if a == [] {
      assert a + b == b;
    } else {
      assert (a + b)[0] == a[0];
      assert (a + b)[1..] == a[1..] + b;
      ParseProxiesAppend(a[1..], b);
    }
  }

  /** `loadProxies`: one descriptor per kept line of `proxy.txt`, in file order; none without the file. */
  function LoadProxies(file: Option<string>): (proxies: seq<Proxy>)
    ensures forall i :: 0 <= i < |proxies| ==> GoodUrl(proxies[i].url)
  {
    match file
    case None => []
    case Some(content) => ParseProxies(CleanLines(content))
  }

  /** The proxies of `a + "\n" + b` are those of `a` followed by those of `b`. */
  lemma LoadProxiesConcat(a: string, b: string)
    ensures LoadProxies(Some(a + "\n" + b)) == LoadProxies(Some(a)) + LoadProxies(Some(b))
  {
    CleanLinesConcat(a, b);
    ParseProxiesAppend(CleanLines(a), CleanLines(b));
  }
}
