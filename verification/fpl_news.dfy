/** The Fantasy Premier League news digest (`ai_agent/tools/fpl_tool.py` and
    the stand-alone `ai_agent/fpl_news_aggregator.py`, which repeats the same
    classification). Fetched items are an input; the model covers the
    de-duplication, the keyword buckets, and the text that is shown. */
module FplNews {
  import opened Text

  /** One fetched item (`{'source': ..., 'title': ..., 'link': ...}`). */
  datatype NewsItem = NewsItem(source: string, title: string, link: string)

  const BreakingKeywords: seq<string> := ["injury", "banned", "suspended", "confirmed", "official",
    "deadline", "team news", "press conference", "breaking", "ruled out"]
  const ViralKeywords: seq<string> := ["wildcard", "free hit", "triple captain", "chip", "price change",
    "riser", "faller", "hamstring", "benched", "rant", "discussion"]
  const NotableKeywords: seq<string> := ["captain", "scout picks", "differentials", "gameweek", "gw",
    "transfer", "fixtures", "analysis", "guide"]
  const SurprisingKeywords: seq<string> := ["shock", "surprise", "unexpected", "record", "insane",
    "crazy", "unbelievable"]

  datatype Bucket = Breaking | Viral | Notable | Surprising | Other

  /** The keywords that select a bucket; `Other` takes what nothing selects. */
  function Keywords(b: Bucket): seq<string> {
    match b
    case Breaking => BreakingKeywords
    case Viral => ViralKeywords
    case Notable => NotableKeywords
    case Surprising => SurprisingKeywords
    case Other => []
  }

  /** The order in which the buckets are tried. Surprising is tried before
      Notable, although it is printed after it. */
  function Rank(b: Bucket): nat {
    match b
    case Breaking => 0
    case Viral => 1
    case Surprising => 2
    case Notable => 3
    case Other => 4
  }

  /** `any(k in title.lower() for k in keywords)` */
  predicate Mentions(title: string, keywords: seq<string>) {
    exists k | k in keywords :: Contains(Lower(title), k)
  }

  /** The `if`/`elif` chain on the lower-cased title. */
  function Classify(title: string): Bucket {
    if Mentions(title, BreakingKeywords) then Breaking
    else if Mentions(title, ViralKeywords) then Viral
    else if Mentions(title, SurprisingKeywords) then Surprising
    else if Mentions(title, NotableKeywords) then Notable
    else Other
  }

  /** A title goes to the first bucket, in the order of `Rank`, whose
      keywords it mentions, and to `Other` when it mentions none. */
  lemma ClassifyPrecedence(title: string, b: Bucket)
    ensures Classify(title) == b <==>
              && (b == Other || Mentions(title, Keywords(b)))
              && forall c: Bucket | Rank(c) < Rank(b) :: !Mentions(title, Keywords(c))
  {
    assert Keywords(Breaking) == BreakingKeywords && Keywords(Viral) == ViralKeywords;
    assert Keywords(Surprising) == SurprisingKeywords && Keywords(Notable) == NotableKeywords;
    assert Rank(Breaking) == 0 && Rank(Viral) == 1 && Rank(Surprising) == 2 && Rank(Notable) == 3;
  }

  /** Case never matters: the title is lower-cased before matching. */
  lemma ClassifyIgnoresCase(title: string)
    ensures Classify(Lower(title)) == Classify(title)
  {
    LowerIdempotent(title);
  }

  /** The line an item is shown as. */
  function Render(item: NewsItem): (line: string)
    ensures IsStory(line)
  {
    "- [" + item.source + "] " + item.title
  }

  // ---------------------------------------------------------------------------
  // De-duplication and buckets

  /** No earlier item has the same title (the check against `seen_titles`). */
  predicate IsFirst(items: seq<NewsItem>, i: int)
    requires 0 <= i < |items|
  {
    forall j | 0 <= j < i :: items[j].title != items[i].title
  }

  /** A classifier of titles; the digest uses `Classify`. */
  type Classifier = string -> Bucket

  /** The positions whose items end up in bucket `b`: exactly the first
      occurrences of titles that classify as `b`, in input order. */
  function BucketPositions(items: seq<NewsItem>, cl: Classifier, b: Bucket): (ps: seq<nat>)
    ensures forall k | 0 <= k < |ps| ::
              ps[k] < |items| && IsFirst(items, ps[k]) && cl(items[ps[k]].title) == b
    ensures forall k, l | 0 <= k < l < |ps| :: ps[k] < ps[l]
    ensures forall i | 0 <= i < |items| && IsFirst(items, i) && cl(items[i].title) == b :: i in ps
    decreases |items|
  {
    if |items| == 0 then []
    else
      var n := |items| - 1;
      var init := items[..n];
      assert forall i | 0 <= i < n :: IsFirst(init, i) == IsFirst(items, i) by {
        assert forall j | 0 <= j < n :: init[j] == items[j];
      }
      BucketPositions(init, cl, b) + (if IsFirst(items, n) && cl(items[n].title) == b then [n] else [])
  }

  /** A repeated title is dropped, and a first occurrence lands in exactly
      one bucket, the one its title classifies as. */
  lemma ExactlyOneBucket(items: seq<NewsItem>, cl: Classifier, i: int, b: Bucket)
    requires 0 <= i < |items|
    ensures i in BucketPositions(items, cl, b) <==> IsFirst(items, i) && b == cl(items[i].title)
  {
    var ps := BucketPositions(items, cl, b);
    if i in ps {
      var k :| 0 <= k < |ps| && ps[k] == i;
    }
  }

  /** The rendered lines of one bucket. */
  function Lines(items: seq<NewsItem>, cl: Classifier, b: Bucket): (ls: seq<string>)
    ensures AllStories(ls)
  {
    var ps := BucketPositions(items, cl, b);
    seq(|ps|, k requires 0 <= k < |ps| => Render(items[ps[k]]))
  }

  /** The five lists of `classified_news`. */
  datatype Classified = Classified(
    breaking: seq<string>,
    viral: seq<string>,
    notable: seq<string>,
    surprising: seq<string>,
    other: seq<string>)
  {
    function Get(b: Bucket): seq<string> {
      match b
      case Breaking => breaking
      case Viral => viral
      case Notable => notable
      case Surprising => surprising
      case Other => other
    }
  }

  /** The reference classification of a list of items. */
  function Classification(items: seq<NewsItem>, cl: Classifier): (c: Classified)
    ensures forall b :: c.Get(b) == Lines(items, cl, b)
  {
    Classified(Lines(items, cl, Breaking), Lines(items, cl, Viral), Lines(items, cl, Notable),
               Lines(items, cl, Surprising), Lines(items, cl, Other))
  }

  /** Appending a line to one bucket. */
  function Add(c: Classified, b: Bucket, line: string): (r: Classified)
    ensures r.Get(b) == c.Get(b) + [line]
    ensures forall d | d != b :: r.Get(d) == c.Get(d)
  {
    match b
    case Breaking => c.(breaking := c.breaking + [line])
    case Viral => c.(viral := c.viral + [line])
    case Notable => c.(notable := c.notable + [line])
    case Surprising => c.(surprising := c.surprising + [line])
    case Other => c.(other := c.other + [line])
  }

  /** One more item extends one bucket of the prefix before it, or none. */
  lemma LinesStep(items: seq<NewsItem>, cl: Classifier, i: nat, b: Bucket)
    requires i < |items|
    ensures Lines(items[..i + 1], cl, b) ==
              Lines(items[..i], cl, b)
              + (if IsFirst(items[..i + 1], i) && cl(items[i].title) == b then [Render(items[i])] else [])
  {
    var p, q := items[..i + 1], items[..i];
    assert p[..i] == q;
    var ps, qs := BucketPositions(p, cl, b), BucketPositions(q, cl, b);
    assert ps == qs + (if IsFirst(p, i) && cl(p[i].title) == b then [i] else []);
    assert forall k | 0 <= k < |qs| :: p[ps[k]] == q[qs[k]];
  }

  /** An item is a first occurrence exactly when its title has not been
      seen before it. */
  lemma FirstIffUnseen(items: seq<NewsItem>, i: nat, seen: set<string>)
    requires i < |items|
    requires seen == set j | 0 <= j < i :: items[j].title
    ensures IsFirst(items[..i + 1], i) <==> items[i].title !in seen
  {
    var p := items[..i + 1];
    if items[i].title in seen {
      var j :| 0 <= j < i && items[j].title == items[i].title;
      assert p[j].title == p[i].title;
    } else {
      forall j | 0 <= j < i ensures p[j].title != p[i].title {
        assert items[j].title in seen;
      }
    }
  }

  /** Two classifications with the same buckets are equal. */
  lemma SameBuckets(c: Classified, d: Classified)
    requires c.Get(Breaking) == d.Get(Breaking) && c.Get(Viral) == d.Get(Viral)
    requires c.Get(Notable) == d.Get(Notable) && c.Get(Surprising) == d.Get(Surprising)
    requires c.Get(Other) == d.Get(Other)
    ensures c == d
  {
  }

  /** The classification of one more item, bucket by bucket. */
  lemma ItemStepAt(items: seq<NewsItem>, cl: Classifier, i: nat, first: bool, b: Bucket)
    requires i < |items| && first == IsFirst(items[..i + 1], i)
    ensures var d := Classification(items[..i], cl);
      Classification(items[..i + 1], cl).Get(b) ==
        (if first then Add(d, cl(items[i].title), Render(items[i])) else d).Get(b)
  {
    var c, d := Classification(items[..i + 1], cl), Classification(items[..i], cl);
    assert c.Get(b) == Lines(items[..i + 1], cl, b);
    assert d.Get(b) == Lines(items[..i], cl, b);
    LinesStep(items, cl, i, b);
    if first {
      var t := cl(items[i].title);
      var e := Add(d, t, Render(items[i]));
      if t == b {
        assert e.Get(b) == d.Get(b) + [Render(items[i])];
      } else {
        assert e.Get(b) == d.Get(b);
      }
    }
  }

  /** One more item extends one bucket of the classification of the prefix
      before it when its title is new, and none otherwise. */
  lemma ItemStep(items: seq<NewsItem>, cl: Classifier, i: nat, first: bool)
    requires i < |items| && first == IsFirst(items[..i + 1], i)
    ensures var c, d := Classification(items[..i + 1], cl), Classification(items[..i], cl);
      c == if first then Add(d, cl(items[i].title), Render(items[i])) else d
  {
    var c, d := Classification(items[..i + 1], cl), Classification(items[..i], cl);
    ItemStepAt(items, cl, i, first, Breaking);
    ItemStepAt(items, cl, i, first, Viral);
    ItemStepAt(items, cl, i, first, Notable);
    ItemStepAt(items, cl, i, first, Surprising);
    ItemStepAt(items, cl, i, first, Other);
    SameBuckets(c, if first then Add(d, cl(items[i].title), Render(items[i])) else d);
  }

  /** One more item extends the classification of the prefix before it. */
  lemma ClassificationStep(items: seq<NewsItem>, cl: Classifier, i: nat, seen: set<string>)
    requires i < |items|
    requires seen == set j | 0 <= j < i :: items[j].title
    ensures items[i].title in seen ==> Classification(items[..i + 1], cl) == Classification(items[..i], cl)
    ensures items[i].title !in seen ==>
              Classification(items[..i + 1], cl) ==
              Add(Classification(items[..i], cl), cl(items[i].title), Render(items[i]))
  {
    FirstIffUnseen(items, i, seen);
    ItemStep(items, cl, i, items[i].title !in seen);
  }

  /** The titles seen after one more item. */
  lemma SeenStep(items: seq<NewsItem>, i: nat, seen: set<string>)
    requires i < |items|
    requires seen == set j | 0 <= j < i :: items[j].title
    ensures (set j | 0 <= j < i + 1 :: items[j].title) == seen + {items[i].title}
  {
    var next := set j | 0 <= j < i + 1 :: items[j].title;
    assert items[i].title in next;
    assert forall t | t in next :: t in seen || t == items[i].title;
  }

  /** The loop of `_prioritize_news` with the classification rule as a
      parameter: a set of seen titles, and each new title appended to its
      bucket. */
  method PrioritizeBy(items: seq<NewsItem>, cl: Classifier) returns (c: Classified)
    ensures c == Classification(items, cl)
  {
    var seen: set<string> := {};
    c := Classified([], [], [], [], []);
    var i := 0;
    assert forall b :: c.Get(b) == Lines(items[..0], cl, b);
    while i < |items|
      invariant 0 <= i <= |items|
      invariant seen == set j | 0 <= j < i :: items[j].title
      invariant c == Classification(items[..i], cl)
    {
      var item := items[i];
      ClassificationStep(items, cl, i, seen);
      SeenStep(items, i, seen);
      if item.title !in seen {
        seen := seen + {item.title};
        c := Add(c, cl(item.title), Render(item));
      }
      i := i + 1;
    }
    assert items[..i] == items;
  }

  /** `_prioritize_news(items)`, and the identical `prioritize_news(items)` of
      the aggregator: it agrees with the reference classification. */
  method Prioritize(items: seq<NewsItem>) returns (c: Classified)
    ensures c == Classification(items, Classify)
  {
    c := PrioritizeBy(items, Classify);
  }

  // ---------------------------------------------------------------------------
  // Rendering the digest

  const BreakingTitle := "1) Breaking news and major developments"
  const ViralTitle := "2) Viral stories getting significant attention"
  const NotableTitle := "3) Notable events affecting many people"
  const SurprisingTitle := "4) Surprising or unusual stories gaining traction"
  const OtherTitle := "Other News"
  // Dafny knows nothing about the single characters of a long string
  // literal, so the leading characters the proofs need are written as a
  // short literal of their own.
  const Placeholder := "- N" + "o major stories found in this category today."
  const NoNews := "N" + "o news found. Please check your internet connection or the source websites."
  const ToolHeader := "=" + "== FANTASY PREMIER LEAGUE NEWS ===\n"
  const MainHeader := "\n" + "=== TODAY'S FANTASY PREMIER LEAGUE NEWS ===\n"
  const FetchingNotice := "Fetching FPL News from multiple sources..."

  /** A section heading, `f"\n{category}:"`. */
  function Heading(category: string): string {
    "\n" + category + ":"
  }

  predicate IsHeading(line: string) {
    |line| > 0 && line[0] == '\n'
  }

  predicate IsStory(line: string) {
    |line| >= 3 && line[0] == '-' && line[1] == ' ' && line[2] == '['
  }

  predicate IsPlaceholder(line: string) {
    line == Placeholder
  }

  /** The placeholder is neither a heading nor a story line. */
  lemma PlaceholderShape()
    ensures !IsHeading(Placeholder) && !IsStory(Placeholder)
    ensures forall line | IsStory(line) || IsHeading(line) :: !IsPlaceholder(line)
  {
    assert Placeholder[0] == '-' && Placeholder[2] == 'N';
  }

  /** The digest never reads as the no-news message. */
  lemma HeaderIsNotNoNews(r: string)
    requires StartsWith(r, ToolHeader)
    ensures r != NoNews
  {
    assert ToolHeader[0] == '=' && NoNews[0] == 'N';
    assert r[0] == ToolHeader[0];
  }

  predicate AllStories(lines: seq<string>) {
    forall k | 0 <= k < |lines| :: IsStory(lines[k])
  }

  /** `stories[:n]` */
  function Take(stories: seq<string>, n: nat): (r: seq<string>)
    ensures |r| == if |stories| <= n then |stories| else n
    ensures r == stories[..|r|]
  {
    if |stories| <= n then stories else stories[..n]
  }

  /** One numbered section: its heading, then its first five stories or the
      placeholder line. */
  function Numbered(category: string, stories: seq<string>): seq<string> {
    [Heading(category)] + (if |stories| > 0 then Take(stories, 5) else [Placeholder])
  }

  /** "Other News", shown only when it has stories, with at most three. */
  function OtherSection(stories: seq<string>): seq<string> {
    if |stories| > 0 then [Heading(OtherTitle)] + Take(stories, 3) else []
  }

  /** The lines after the header that both `_format_news` and `main` emit:
      the four numbered sections in dictionary order, then Other News. */
  function SectionLines(c: Classified): seq<string> {
    Numbered(BreakingTitle, c.breaking) + Numbered(ViralTitle, c.viral)
    + Numbered(NotableTitle, c.notable) + Numbered(SurprisingTitle, c.surprising)
    + OtherSection(c.other)
  }

  /** `_format_news(classified)`: the lines joined by newlines. */
  function FormatNews(c: Classified): (r: string)
    ensures StartsWith(r, ToolHeader)
  {
    JoinStartsWithFirst("\n", [ToolHeader] + SectionLines(c));
    Join("\n", [ToolHeader] + SectionLines(c))
  }

  /** `FPLTool.get_news()` with the fetched items as input: the fixed
      message exactly when nothing was fetched, the digest otherwise. */
  function GetNews(items: seq<NewsItem>): (r: string)
    ensures r == NoNews <==> |items| == 0
    ensures |items| > 0 ==> r == FormatNews(Classification(items, Classify))
  {
    if |items| == 0 then NoNews
    else
      var r := FormatNews(Classification(items, Classify));
      HeaderIsNotNoNews(r);
      r
  }

  /** The arguments of the `print` calls of the aggregator's `main`, with the
      fetched items as input. */
  function MainOutput(items: seq<NewsItem>): (out: seq<string>)
    ensures |out| >= 2 && out[0] == FetchingNotice
    ensures |items| == 0 <==> out[1] == NoNews
    ensures |items| == 0 ==> |out| == 2
    ensures |items| > 0 ==> out[1] == MainHeader && out[2..] == SectionLines(Classification(items, Classify))
  {
    if |items| == 0 then [FetchingNotice, NoNews]
    else
      assert MainHeader[0] == '\n' && NoNews[0] == 'N';
      var out := [FetchingNotice, MainHeader] + SectionLines(Classification(items, Classify));
      assert out[2..] == SectionLines(Classification(items, Classify));
      out
  }

  /** The aggregator prints the same sections as the tool's digest. */
  lemma MainMatchesTool(items: seq<NewsItem>)
    requires |items| > 0
    ensures GetNews(items) == Join("\n", [ToolHeader] + MainOutput(items)[2..])
  {
  }

  // ---------------------------------------------------------------------------
  // What the digest shows

  function Filter(p: string -> bool, lines: seq<string>): seq<string>
    decreases |lines|
  {
    if |lines| == 0 then []
    else (if p(lines[0]) then [lines[0]] else []) + Filter(p, lines[1..])
  }

  lemma {:induction false} FilterAppend(p: string -> bool, a: seq<string>, b: seq<string>)
    ensures Filter(p, a + b) == Filter(p, a) + Filter(p, b)
    decreases |a|
  {
    if |a| == 0 {
      assert a + b == b;
    } else {
      var h := if p(a[0]) then [a[0]] else [];
      assert (a + b)[0] == a[0];
      assert (a + b)[1..] == a[1..] + b;
      FilterAppend(p, a[1..], b);
      calc {
        Filter(p, a + b);
        h + Filter(p, a[1..] + b);
        h + (Filter(p, a[1..]) + Filter(p, b));
        (h + Filter(p, a[1..])) + Filter(p, b);
      }
    }
  }

  lemma {:induction false} FilterAll(p: string -> bool, lines: seq<string>)
    requires forall k | 0 <= k < |lines| :: p(lines[k])
    ensures Filter(p, lines) == lines
    decreases |lines|
  {
    if |lines| > 0 {
      FilterAll(p, lines[1..]);
    }
  }

  lemma {:induction false} FilterNone(p: string -> bool, lines: seq<string>)
    requires forall k | 0 <= k < |lines| :: !p(lines[k])
    ensures Filter(p, lines) == []
    decreases |lines|
  {
    if |lines| > 0 {
      FilterNone(p, lines[1..]);
    }
  }

  /** What one numbered section contributes as headings, stories and
      placeholders. */
  lemma NumberedParts(category: string, stories: seq<string>)
    requires AllStories(stories)
    ensures Filter(IsHeading, Numbered(category, stories)) == [Heading(category)]
    ensures Filter(IsStory, Numbered(category, stories)) == Take(stories, 5)
    ensures Filter(IsPlaceholder, Numbered(category, stories)) == (if |stories| == 0 then [Placeholder] else [])
  {
    var shown := Take(stories, 5);
    var tail := if |stories| > 0 then shown else [Placeholder];
    var h := Heading(category);
    PlaceholderShape();
    assert IsHeading(h) && !IsStory(h) && !IsPlaceholder(h);
    FilterAppend(IsHeading, [h], tail);
    FilterAppend(IsStory, [h], tail);
    FilterAppend(IsPlaceholder, [h], tail);
    if |stories| > 0 {
      assert forall k | 0 <= k < |shown| :: shown[k] == stories[k];
      FilterNone(IsHeading, shown);
      FilterAll(IsStory, shown);
      assert forall k | 0 <= k < |shown| :: !IsPlaceholder(shown[k]) by {
        forall k | 0 <= k < |shown| ensures !IsPlaceholder(shown[k]) {
          assert IsStory(shown[k]);
        }
      }
      FilterNone(IsPlaceholder, shown);
    }
  }

  /** What the Other News section contributes. */
  lemma OtherParts(stories: seq<string>)
    requires AllStories(stories)
    ensures Filter(IsHeading, OtherSection(stories)) == (if |stories| > 0 then [Heading(OtherTitle)] else [])
    ensures Filter(IsStory, OtherSection(stories)) == Take(stories, 3)
    ensures Filter(IsPlaceholder, OtherSection(stories)) == []
  {
    var shown := Take(stories, 3);
    var h := Heading(OtherTitle);
    PlaceholderShape();
    assert IsHeading(h) && !IsStory(h) && !IsPlaceholder(h);
    if |stories| > 0 {
      FilterAppend(IsHeading, [h], shown);
      FilterAppend(IsStory, [h], shown);
      FilterAppend(IsPlaceholder, [h], shown);
      assert forall k | 0 <= k < |shown| :: shown[k] == stories[k];
      FilterNone(IsHeading, shown);
      FilterAll(IsStory, shown);
      assert forall k | 0 <= k < |shown| :: !IsPlaceholder(shown[k]) by {
        forall k | 0 <= k < |shown| ensures !IsPlaceholder(shown[k]) {
          assert IsStory(shown[k]);
        }
      }
      FilterNone(IsPlaceholder, shown);
    }
  }

  /** Filtering five concatenated parts filters each part. */
  lemma FilterFive(p: string -> bool, a: seq<string>, b: seq<string>, c: seq<string>, d: seq<string>, e: seq<string>)
    ensures Filter(p, a + b + c + d + e) == Filter(p, a) + Filter(p, b) + Filter(p, c) + Filter(p, d) + Filter(p, e)
  {
    FilterAppend(p, a + b + c + d, e);
    FilterAppend(p, a + b + c, d);
    FilterAppend(p, a + b, c);
    FilterAppend(p, a, b);
  }

  predicate WellFormed(c: Classified) {
    forall b :: AllStories(c.Get(b))
  }

  /** The headings appear in the order 1 to 4, followed by Other News exactly
      when that bucket is non-empty. */
  lemma DigestHeadings(c: Classified)
    requires WellFormed(c)
    ensures Filter(IsHeading, SectionLines(c)) ==
              [Heading(BreakingTitle), Heading(ViralTitle), Heading(NotableTitle), Heading(SurprisingTitle)]
              + (if |c.other| > 0 then [Heading(OtherTitle)] else [])
  {
    HeadingParts(c);
    FilterFive(IsHeading, Numbered(BreakingTitle, c.breaking), Numbered(ViralTitle, c.viral),
      Numbered(NotableTitle, c.notable), Numbered(SurprisingTitle, c.surprising), OtherSection(c.other));
  }

  /** The stories shown are the first five of each numbered bucket and the
      first three of Other News, in that order. */
  lemma DigestStories(c: Classified)
    requires WellFormed(c)
    ensures Filter(IsStory, SectionLines(c)) ==
              Take(c.breaking, 5) + Take(c.viral, 5) + Take(c.notable, 5) + Take(c.surprising, 5)
              + Take(c.other, 3)
  {
    StoryParts(c);
    FilterFive(IsStory, Numbered(BreakingTitle, c.breaking), Numbered(ViralTitle, c.viral),
      Numbered(NotableTitle, c.notable), Numbered(SurprisingTitle, c.surprising), OtherSection(c.other));
  }

  /** A placeholder line stands for each empty numbered bucket, and only
      for those. */
  lemma DigestPlaceholders(c: Classified)
    requires WellFormed(c)
    ensures Filter(IsPlaceholder, SectionLines(c)) ==
              (if |c.breaking| == 0 then [Placeholder] else [])
              + (if |c.viral| == 0 then [Placeholder] else [])
              + (if |c.notable| == 0 then [Placeholder] else [])
              + (if |c.surprising| == 0 then [Placeholder] else [])
  {
    PlaceholderParts(c);
    FilterFive(IsPlaceholder, Numbered(BreakingTitle, c.breaking), Numbered(ViralTitle, c.viral),
      Numbered(NotableTitle, c.notable), Numbered(SurprisingTitle, c.surprising), OtherSection(c.other));
  }

  /** The headings each section contributes. */
  lemma HeadingParts(c: Classified)
    requires WellFormed(c)
    ensures Filter(IsHeading, Numbered(BreakingTitle, c.breaking)) == [Heading(BreakingTitle)]
    ensures Filter(IsHeading, Numbered(ViralTitle, c.viral)) == [Heading(ViralTitle)]
    ensures Filter(IsHeading, Numbered(NotableTitle, c.notable)) == [Heading(NotableTitle)]
    ensures Filter(IsHeading, Numbered(SurprisingTitle, c.surprising)) == [Heading(SurprisingTitle)]
    ensures Filter(IsHeading, OtherSection(c.other)) == (if |c.other| > 0 then [Heading(OtherTitle)] else [])
  {
    BucketsAreStories(c);
    NumberedParts(BreakingTitle, c.breaking);
    NumberedParts(ViralTitle, c.viral);
    NumberedParts(NotableTitle, c.notable);
    NumberedParts(SurprisingTitle, c.surprising);
    OtherParts(c.other);
  }

  /** The stories each section contributes. */
  lemma StoryParts(c: Classified)
    requires WellFormed(c)
    ensures Filter(IsStory, Numbered(BreakingTitle, c.breaking)) == Take(c.breaking, 5)
    ensures Filter(IsStory, Numbered(ViralTitle, c.viral)) == Take(c.viral, 5)
    ensures Filter(IsStory, Numbered(NotableTitle, c.notable)) == Take(c.notable, 5)
    ensures Filter(IsStory, Numbered(SurprisingTitle, c.surprising)) == Take(c.surprising, 5)
    ensures Filter(IsStory, OtherSection(c.other)) == Take(c.other, 3)
  {
    BucketsAreStories(c);
    NumberedParts(BreakingTitle, c.breaking);
    NumberedParts(ViralTitle, c.viral);
    NumberedParts(NotableTitle, c.notable);
    NumberedParts(SurprisingTitle, c.surprising);
    OtherParts(c.other);
  }

  /** The placeholders each section contributes. */
  lemma PlaceholderParts(c: Classified)
    requires WellFormed(c)
    ensures Filter(IsPlaceholder, Numbered(BreakingTitle, c.breaking)) == (if |c.breaking| == 0 then [Placeholder] else [])
    ensures Filter(IsPlaceholder, Numbered(ViralTitle, c.viral)) == (if |c.viral| == 0 then [Placeholder] else [])
    ensures Filter(IsPlaceholder, Numbered(NotableTitle, c.notable)) == (if |c.notable| == 0 then [Placeholder] else [])
    ensures Filter(IsPlaceholder, Numbered(SurprisingTitle, c.surprising)) == (if |c.surprising| == 0 then [Placeholder] else [])
    ensures Filter(IsPlaceholder, OtherSection(c.other)) == []
  {
    BucketsAreStories(c);
    NumberedParts(BreakingTitle, c.breaking);
    NumberedParts(ViralTitle, c.viral);
    NumberedParts(NotableTitle, c.notable);
    NumberedParts(SurprisingTitle, c.surprising);
    OtherParts(c.other);
  }

  /** Every bucket of a well-formed classification holds stories only. */
  lemma BucketsAreStories(c: Classified)
    requires WellFormed(c)
    ensures AllStories(c.breaking) && AllStories(c.viral) && AllStories(c.notable)
    ensures AllStories(c.surprising) && AllStories(c.other)
  {
    assert AllStories(c.Get(Breaking)) && AllStories(c.Get(Viral)) && AllStories(c.Get(Notable))
      && AllStories(c.Get(Surprising)) && AllStories(c.Get(Other));
  }

  /** Every classification of fetched items renders as stories only. */
  lemma ClassificationWellFormed(items: seq<NewsItem>, cl: Classifier)
    ensures WellFormed(Classification(items, cl))
  {
  }

  // ---------------------------------------------------------------------------
  // Joining

  lemma {:induction false} JoinStartsWithFirst(sep: string, parts: seq<string>)
    requires |parts| > 0
    ensures StartsWith(Join(sep, parts), parts[0])
    decreases |parts|
  {
    if |parts| > 1 {
      var rest := Join(sep, parts[1..]);
      assert (parts[0] + sep + rest)[..|parts[0]|] == parts[0];
    }
  }
}
