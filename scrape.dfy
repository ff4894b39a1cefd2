/** The two scrapes that recover the secret the token endpoint asks for: the path
    of the site's main script in its landing page, and the secret literal in
    that script. Both are Ruby `String#[regexp, 1]` lookups of the form
    `(?:L1|L2|...)O(.*?)C` where `.` matches any character but a newline. */
module Scrape {
  import opened Text

  /** A pattern: alternative lead literals (tried in order), an opening literal, a
      lazily matched run of non-newline characters and a closing literal. The
      captured group is the run alone, or, when `keepDelims`, the opening literal,
      the run and the closing literal together. */
  datatype Shape = Shape(leads: seq<string>, open: string, close: string, keepDelims: bool)

  /** `(?:src="| )(\/static\/js\/main\..*?\.chunk\.js)` */
  const SCRIPT_SHAPE := Shape(["src=\"", " "], "/static/js/main.", ".chunk.js", true)

  /** `var n\="(.*?)",c\="\/api\/v1\/assets\/"` */
  const SECRET_SHAPE := Shape(["var n=\""], "", "\",c=\"/api/v1/assets/\"", false)

  const SITE := "https://recycleapp.be"

  predicate NoNewline(s: string)
  {
    forall j :: 0 <= j < |s| ==> s[j] != '\n'
  }

  /** A run of `k` non-newline characters starts at `from` and `close` follows it. */
  predicate RunThenClose(s: string, from: nat, close: string, k: nat)
  {
    from + k <= |s| && NoNewline(s[from..from + k]) && OccursAt(s, close, from + k)
  }

  /** The lazy `.*?` followed by `close`: tries run lengths k, k+1, ... and stops at
      the first that `close` follows, or at a newline or the end of the text. */
  function LazyRun(s: string, from: nat, close: string, k: nat): (r: Option<nat>)
    requires from + k <= |s| && NoNewline(s[from..from + k])
    ensures r.Some? ==> k <= r.value && RunThenClose(s, from, close, r.value)
    decreases |s| - (from + k)
  {
    if OccursAt(s, close, from + k) then Some(k)
    else if from + k < |s| && s[from + k] != '\n' then
      assert s[from..from + k + 1] == s[from..from + k] + [s[from + k]];
      LazyRun(s, from, close, k + 1)
    else None
  }

  /** The run found is the shortest; when none is found, no run works. */
  lemma {:induction false} LazyRunShortest(s: string, from: nat, close: string, k0: nat)
    requires from + k0 <= |s| && NoNewline(s[from..from + k0])
    ensures LazyRun(s, from, close, k0).Some? ==>
              forall k': nat :: k0 <= k' < LazyRun(s, from, close, k0).value ==> !RunThenClose(s, from, close, k')
    ensures LazyRun(s, from, close, k0).None? ==>
              forall k': nat :: k0 <= k' ==> !RunThenClose(s, from, close, k')
    decreases |s| - (from + k0)
  {
    if OccursAt(s, close, from + k0) {
    } else if from + k0 < |s| && s[from + k0] != '\n' {
      assert s[from..from + k0 + 1] == s[from..from + k0] + [s[from + k0]];
      LazyRunShortest(s, from, close, k0 + 1);
    } else {
      forall k': nat | k0 < k'
        ensures !RunThenClose(s, from, close, k')
      {
        if from + k' <= |s| {
          assert s[from..from + k'][k0] == '\n';
        }
      }
    }
  }

  /** The regex matches at index `i` through lead number `li` with a run of length `k`. */
  predicate MatchesAt(sh: Shape, s: string, i: nat, li: nat, k: nat)
  {
    li < |sh.leads|
    && OccursAt(s, sh.leads[li], i)
    && OccursAt(s, sh.open, i + |sh.leads[li]|)
    && RunThenClose(s, i + |sh.leads[li]| + |sh.open|, sh.close, k)
  }

  /** Lead number `li` at index `i`: the lead and the opening literal, then the
      lazy run; the result is the run length. */
  function LeadRun(sh: Shape, s: string, i: nat, li: nat): (r: Option<nat>)
    requires li < |sh.leads|
    ensures r.Some? ==> MatchesAt(sh, s, i, li, r.value)
  {
    var from := i + |sh.leads[li]|;
    if OccursAt(s, sh.leads[li], i) && OccursAt(s, sh.open, from) then
      var start := from + |sh.open|;
      assert s[start..start + 0] == [];
      LazyRun(s, start, sh.close, 0)
    else None
  }

  /** The lead's run is its shortest; when there is none the lead cannot match. */
  lemma LeadRunShortest(sh: Shape, s: string, i: nat, li: nat)
    requires li < |sh.leads|
    ensures LeadRun(sh, s, i, li).Some? ==>
              forall k': nat :: k' < LeadRun(sh, s, i, li).value ==> !MatchesAt(sh, s, i, li, k')
    ensures LeadRun(sh, s, i, li).None? ==> forall k: nat :: !MatchesAt(sh, s, i, li, k)
  {
    var from := i + |sh.leads[li]|;
    if OccursAt(s, sh.leads[li], i) && OccursAt(s, sh.open, from) {
      var start := from + |sh.open|;
      assert s[start..start + 0] == [];
      LazyRunShortest(s, start, sh.close, 0);
    }
  }

  /** The alternation at index `i`, trying leads `li`, `li + 1`, ... in order; the
      first lead that can be completed wins, with its shortest run. The result is
      the lead number and the run length. */
  function MatchAt(sh: Shape, s: string, i: nat, li: nat): (r: Option<(nat, nat)>)
    ensures r.Some? ==> li <= r.value.0 && MatchesAt(sh, s, i, r.value.0, r.value.1)
    decreases |sh.leads| - li
  {
    if li >= |sh.leads| then None
    else match LeadRun(sh, s, i, li)
      case Some(k) => Some((li, k))
      case None => MatchAt(sh, s, i, li + 1)
  }

  /** The regex search from index `i`: the leftmost index where the pattern matches,
      with the lead and run length used there. */
  function FirstMatch(sh: Shape, s: string, i: nat): (r: Option<(nat, nat, nat)>)
    ensures r.Some? ==> i <= r.value.0 && MatchesAt(sh, s, r.value.0, r.value.1, r.value.2)
    decreases |s| + 1 - i
  {
    if i > |s| then None
    else match MatchAt(sh, s, i, 0)
      case Some((l, k)) => Some((i, l, k))
      case None => FirstMatch(sh, s, i + 1)
  }

  /** The captured group of a match. */
  function Group(sh: Shape, s: string, i: nat, li: nat, k: nat): string
    requires MatchesAt(sh, s, i, li, k)
  {
    var from := i + |sh.leads[li]|;
    if sh.keepDelims then s[from..from + |sh.open| + k + |sh.close|]
    else s[from + |sh.open|..from + |sh.open| + k]
  }

  /** `String#[regexp, 1]`: the group of the leftmost match, or `nil`. */
  function Capture(sh: Shape, s: string): Option<string>
  {
    match FirstMatch(sh, s, 0)
    case Some((i, l, k)) => Some(Group(sh, s, i, l, k))
    case None => None
  }

  /** No earlier lead matches, and the chosen lead has no shorter run; when the
      alternation fails no lead matches at all. */
  lemma {:induction false} MatchAtFirst(sh: Shape, s: string, i: nat, li: nat)
    ensures MatchAt(sh, s, i, li).Some? ==>
              (forall l': nat, k': nat :: li <= l' < MatchAt(sh, s, i, li).value.0 ==> !MatchesAt(sh, s, i, l', k'))
              && forall k': nat :: k' < MatchAt(sh, s, i, li).value.1 ==> !MatchesAt(sh, s, i, MatchAt(sh, s, i, li).value.0, k')
    ensures MatchAt(sh, s, i, li).None? ==> forall l: nat, k: nat :: li <= l ==> !MatchesAt(sh, s, i, l, k)
    decreases |sh.leads| - li
  {
    if li < |sh.leads| {
      LeadRunShortest(sh, s, i, li);
      if LeadRun(sh, s, i, li).None? {
        MatchAtFirst(sh, s, i, li + 1);
      }
    }
  }

  /** The search finds the leftmost index where the pattern matches, and finds
      nothing only when it matches nowhere from `i` on. */
  lemma {:induction false} FirstMatchLeftmost(sh: Shape, s: string, i: nat)
    ensures FirstMatch(sh, s, i).Some? ==>
              var m := FirstMatch(sh, s, i).value;
              && MatchAt(sh, s, m.0, 0) == Some((m.1, m.2))
              && forall j: nat, l: nat, k: nat :: i <= j < m.0 ==> !MatchesAt(sh, s, j, l, k)
    ensures FirstMatch(sh, s, i).None? ==> forall j: nat, l: nat, k: nat :: i <= j ==> !MatchesAt(sh, s, j, l, k)
    decreases |s| + 1 - i
  {
    if i <= |s| {
      MatchAtFirst(sh, s, i, 0);
      var here := MatchAt(sh, s, i, 0);
      if here.None? {
        assert FirstMatch(sh, s, i) == FirstMatch(sh, s, i + 1);
        assert forall l: nat, k: nat :: !MatchesAt(sh, s, i, l, k);
        FirstMatchLeftmost(sh, s, i + 1);
        if FirstMatch(sh, s, i + 1).Some? {
          var m := FirstMatch(sh, s, i + 1).value;
          forall j: nat, l: nat, k: nat | i <= j < m.0
            ensures !MatchesAt(sh, s, j, l, k)
          {
            if j > i {
              assert i + 1 <= j < m.0;
            }
          }
        }
      } else {
        assert FirstMatch(sh, s, i) == Some((i, here.value.0, here.value.1));
      }
    } else {
      forall j: nat, l: nat, k: nat | i <= j
        ensures !MatchesAt(sh, s, j, l, k)
      {
        if l < |sh.leads| {
          assert !OccursAt(s, sh.leads[l], j);
        }
      }
    }
  }

  /** The run of a match. */
  function Run(sh: Shape, s: string, i: nat, li: nat, k: nat): string
    requires MatchesAt(sh, s, i, li, k)
  {
    var start := i + |sh.leads[li]| + |sh.open|;
    s[start..start + k]
  }

  /** The group of a match is its run, with or without the literals around it.
      Kept apart from `MatchSpellsOut`, which restates it, so that each proof stays small. */
  lemma GroupOfMatch(sh: Shape, s: string, i: nat, li: nat, k: nat)
    requires MatchesAt(sh, s, i, li, k)
    ensures Group(sh, s, i, li, k) == if sh.keepDelims then sh.open + Run(sh, s, i, li, k) + sh.close
                                     else Run(sh, s, i, li, k)
  {
    if sh.keepDelims {
      var open, close, x := sh.open, sh.close, Run(sh, s, i, li, k);
      var from := i + |sh.leads[li]|;
      var b := from + |open|;
      assert x == s[b..b + k];
      assert OccursAt(s, x, b);
      OccursJoin(s, open, x, from);
      OccursJoin(s, open + x, close, from);
    }
  }

  /** A match spells out lead, opening literal, run and closing literal at its index,
      and its group is the run, with or without the literals around it. */
  lemma MatchSpellsOut(sh: Shape, s: string, i: nat, li: nat, k: nat)
    requires MatchesAt(sh, s, i, li, k)
    ensures NoNewline(Run(sh, s, i, li, k))
    ensures OccursAt(s, sh.leads[li] + sh.open + Run(sh, s, i, li, k) + sh.close, i)
    ensures Group(sh, s, i, li, k) == if sh.keepDelims then sh.open + Run(sh, s, i, li, k) + sh.close
                                     else Run(sh, s, i, li, k)
  {
    var lead, open, close, x := sh.leads[li], sh.open, sh.close, Run(sh, s, i, li, k);
    var b := i + |lead| + |open|;
    assert x == s[b..b + k];
    assert OccursAt(s, x, b);
    OccursJoin(s, lead, open, i);
    OccursJoin(s, lead + open, x, i);
    OccursJoin(s, lead + open + x, close, i);
    GroupOfMatch(sh, s, i, li, k);
  }

  /** Conversely, lead, opening literal, a newline-free run and the closing literal
      spelled out at an index are a match there. */
  lemma SpelledOutMatches(sh: Shape, s: string, i: nat, li: nat, x: string)
    requires li < |sh.leads| && NoNewline(x)
    requires OccursAt(s, sh.leads[li] + sh.open + x + sh.close, i)
    ensures MatchesAt(sh, s, i, li, |x|) && Run(sh, s, i, li, |x|) == x
  {
    var lead, open, close := sh.leads[li], sh.open, sh.close;
    OccursSplit(s, lead + open + x, close, i);
    OccursSplit(s, lead + open, x, i);
    OccursSplit(s, lead, open, i);
  }

  /** Lead number `li`, the opening literal, `x` and the closing literal, in a row. */
  function Frame(sh: Shape, li: nat, x: string): string
    requires li < |sh.leads|
  {
    sh.leads[li] + sh.open + x + sh.close
  }

  /** The search's match is spelled out at its index; no newline-free text is framed
      at any earlier index, nor more briefly through the same lead at that index. */
  lemma FirstMatchSpellsOut(sh: Shape, s: string)
    requires FirstMatch(sh, s, 0).Some?
    ensures var m := FirstMatch(sh, s, 0).value;
            && NoNewline(Run(sh, s, m.0, m.1, m.2))
            && OccursAt(s, Frame(sh, m.1, Run(sh, s, m.0, m.1, m.2)), m.0)
            && (forall j: nat, l: nat, y :: j < m.0 && l < |sh.leads| && NoNewline(y) ==> !OccursAt(s, Frame(sh, l, y), j))
            && (forall y :: |y| < m.2 && NoNewline(y) ==> !OccursAt(s, Frame(sh, m.1, y), m.0))
  {
    var m := FirstMatch(sh, s, 0).value;
    var (i, l, k) := m;
    MatchSpellsOut(sh, s, i, l, k);
    FirstMatchLeftmost(sh, s, 0);
    MatchAtFirst(sh, s, i, 0);
    forall j: nat, l': nat, y | j < i && l' < |sh.leads| && NoNewline(y)
      ensures !OccursAt(s, Frame(sh, l', y), j)
    {
      if OccursAt(s, Frame(sh, l', y), j) {
        SpelledOutMatches(sh, s, j, l', y);
      }
    }
    forall y | |y| < k && NoNewline(y) ensures !OccursAt(s, Frame(sh, l, y), i) {
      if OccursAt(s, Frame(sh, l, y), i) {
        SpelledOutMatches(sh, s, i, l, y);
      }
    }
  }

  // ----- The two scrapes -----

  /** `body_str[/(?:src="| )(\/static\/js\/main\..*?\.chunk\.js)/, 1]` on the landing page. */
  function MainScriptPath(html: string): Option<string>
  {
    Capture(SCRIPT_SHAPE, html)
  }

  /** The address the script is fetched from: `nil` interpolates as the empty string,
      so without a match the landing page itself is fetched again. */
  function ScriptUrl(html: string): string
  {
    match MainScriptPath(html)
    case Some(path) => SITE + path
    case None => SITE
  }

  /** `body_str[/var n\="(.*?)",c\="\/api\/v1\/assets\/"/, 1]` on the script. */
  function Secret(script: string): Option<string>
  {
    Capture(SECRET_SHAPE, script)
  }

  /** `var n="` + x + `",c="/api/v1/assets/"`. */
  function SecretFrame(x: string): string
  {
    Frame(SECRET_SHAPE, 0, x)
  }

  /** A scraped secret holds no newline and is framed by `var n="` and
      `",c="/api/v1/assets/"` in the script, at the leftmost place where any
      newline-free text is so framed, and no shorter text is framed there. */
  lemma SecretFound(script: string)
    requires Secret(script).Some?
    ensures NoNewline(Secret(script).value)
    ensures Contains(script, SecretFrame(Secret(script).value))
    ensures exists i: nat ::
              && OccursAt(script, SecretFrame(Secret(script).value), i)
              && (forall j: nat, y :: j < i && NoNewline(y) ==> !OccursAt(script, SecretFrame(y), j))
              && (forall y :: |y| < |Secret(script).value| && NoNewline(y) ==> !OccursAt(script, SecretFrame(y), i))
  {
    var sh := SECRET_SHAPE;
    var m := FirstMatch(sh, script, 0).value;
    FirstMatchSpellsOut(sh, script);
    MatchSpellsOut(sh, script, m.0, m.1, m.2);
    assert m.1 == 0;
    var x := Secret(script).value;
    assert x == Run(sh, script, m.0, m.1, m.2);
    assert OccursAt(script, SecretFrame(x), m.0);
  }

  /** The scrape comes back `nil` exactly when no newline-free text is framed by
      `var n="` and `",c="/api/v1/assets/"` anywhere in the script. */
  lemma SecretMissing(script: string)
    ensures Secret(script).None? <==> forall j: nat, y :: NoNewline(y) ==> !OccursAt(script, SecretFrame(y), j)
  {
    var sh := SECRET_SHAPE;
    FirstMatchLeftmost(sh, script, 0);
    if Secret(script).None? {
      forall j: nat, y | NoNewline(y) ensures !OccursAt(script, SecretFrame(y), j) {
        if OccursAt(script, SecretFrame(y), j) {
          SpelledOutMatches(sh, script, j, 0, y);
        }
      }
    } else {
      SecretFound(script);
    }
  }

  /** When the group spans the literals, the capture is the opening literal, a
      newline-free run and the closing literal, and some lead precedes it. */
  lemma KeptGroupShape(sh: Shape, s: string)
    requires sh.keepDelims && Capture(sh, s).Some?
    ensures exists run :: NoNewline(run) && Capture(sh, s).value == sh.open + run + sh.close
    ensures exists l :: 0 <= l < |sh.leads| && Contains(s, sh.leads[l] + Capture(sh, s).value)
  {
    var m := FirstMatch(sh, s, 0).value;
    var i, l, k := m.0, m.1, m.2;
    MatchSpellsOut(sh, s, i, l, k);
    var run := Run(sh, s, i, l, k);
    var p := Capture(sh, s).value;
    assert p == sh.open + run + sh.close;
    assert sh.leads[l] + sh.open + run + sh.close == sh.leads[l] + p;
    assert i <= |s| && OccursAt(s, sh.leads[l] + p, i);
  }

  /** A scraped script path starts with `/static/js/main.`, ends with `.chunk.js`
      with no newline between, and follows `src="` or a space in the page. */
  lemma MainScriptPathFound(html: string)
    requires MainScriptPath(html).Some?
    ensures exists run ::
              && NoNewline(run)
              && MainScriptPath(html).value == SCRIPT_SHAPE.open + run + SCRIPT_SHAPE.close
    ensures Contains(html, SCRIPT_SHAPE.leads[0] + MainScriptPath(html).value)
            || Contains(html, SCRIPT_SHAPE.leads[1] + MainScriptPath(html).value)
  {
    KeptGroupShape(SCRIPT_SHAPE, html);
    var l :| 0 <= l < |SCRIPT_SHAPE.leads| && Contains(html, SCRIPT_SHAPE.leads[l] + MainScriptPath(html).value);
    assert l == 0 || l == 1;
  }

  /** The script address always lies on the site; after a hit it is the site, the
      opening text, a newline-free run and the closing text, and after a miss it is
      the landing page itself. */
  lemma ScriptUrlShape(html: string)
    ensures SITE <= ScriptUrl(html)
    ensures MainScriptPath(html).Some? ==>
              exists run :: NoNewline(run) && ScriptUrl(html) == SITE + SCRIPT_SHAPE.open + run + SCRIPT_SHAPE.close
    ensures MainScriptPath(html).None? ==> ScriptUrl(html) == SITE
  {
    match MainScriptPath(html)
    case Some(path) =>
      Prefix(SITE, path);
      MainScriptPathFound(html);
      var run :| NoNewline(run) && path == SCRIPT_SHAPE.open + run + SCRIPT_SHAPE.close;
      assert SITE + path == SITE + SCRIPT_SHAPE.open + run + SCRIPT_SHAPE.close;
    case None =>
  }

  /** A text is a prefix of itself followed by anything. */
  lemma Prefix(a: string, b: string)
    ensures a <= a + b
  {
    assert (a + b)[..|a|] == a;
  }
}
