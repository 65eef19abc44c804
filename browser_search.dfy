/**
 * The browser search analysis plugin.  Each search engine has an
 * extractor that pulls the search term out of a URL; the plugin counts
 * 'engine:term' for every web history event whose URL one of the engine
 * filters matches, and reports the counts engine by engine.
 */
module BrowserSearch {
  import opened Common
  import opened Sorting

  // ---------------------------------------------------------------------
  // Extractors (FilterClass)

  /** The number of whitespace characters at the front of s. */
  function SpaceCount(s: string): (n: nat)
    ensures n <= |s| && (n == |s| || !IsSpace(s[n]))
    ensures forall i :: 0 <= i < n ==> IsSpace(s[i])
  {
    if s != [] && IsSpace(s[0]) then 1 + SpaceCount(s[1..]) else 0
  }

  /** The number of other characters at the front of s. */
  function WordLength(s: string): (n: nat)
    ensures n <= |s| && (n == |s| || IsSpace(s[n]))
    ensures forall i :: 0 <= i < n ==> !IsSpace(s[i])
  {
    if s != [] && !IsSpace(s[0]) then 1 + WordLength(s[1..]) else 0
  }

  /** s.split()[0]: the first run of non-whitespace, None when there is none (split() is then empty). */
  function FirstWord(s: string): (r: Option<string>)
    ensures r.None? <==> forall i :: 0 <= i < |s| ==> IsSpace(s[i])
    ensures r.Some? ==> r.value != [] && forall i :: 0 <= i < |r.value| ==> !IsSpace(r.value[i])
  {
    var a := SpaceCount(s);
    if a == |s| then None
    else
      var w := WordLength(s[a..]);
      Some(s[a..a + w])
  }

  /**
   * _GetBetweenQEqualsAndAmbersand: the string itself without 'q=';
   * otherwise what follows the first 'q=', cut at the first '&' to its first
   * word unless nothing is left before the '&'.  A part before the '&' that
   * is all whitespace has no first word and raises IndexError.
   */
  function BetweenQEqualsAndAmpersand(s: string): (r: Result<string>)
  {
    if !Contains(s, "q=") then Ok(s)
    else
      var line := Partition(s, "q=").2;
      var beforeAnd := Partition(line, "&").0;
      if beforeAnd == [] then Ok(line)
      else match FirstWord(beforeAnd)
        case None => Err(IndexError)
        case Some(w) => Ok(w)
  }

  predicate SearchAndQInLine(s: string)
  {
    Contains(s, "search") && Contains(s, "q=")
  }

  function Plus(s: string): (r: string)
    ensures |r| == |s| && forall i :: 0 <= i < |r| ==> r[i] != '+'
  {
    ReplaceChar(s, '+', ' ')
  }

  /** GoogleSearch: nothing without 'search' and 'q=' or when no term is left; '+' reads as a space. */
  function GoogleSearch(url: string): (r: Result<Option<string>>)
  {
    if !SearchAndQInLine(url) then Ok(None)
    else match BetweenQEqualsAndAmpersand(url)
      case Err(e) => Err(e)
      case Ok(line) => if line == [] then Ok(None) else Ok(Some(Plus(line)))
  }

  /** GenericSearch, also YouTube and BingSearch: like GoogleSearch, but an empty term is returned too. */
  function GenericSearch(url: string): (r: Result<Option<string>>)
  {
    if !SearchAndQInLine(url) then Ok(None)
    else match BetweenQEqualsAndAmpersand(url)
      case Err(e) => Err(e)
      case Ok(line) => Ok(Some(Plus(line)))
  }

  /** Yandex: the first word of what follows 'text=' up to '&'; nothing when that is empty. */
  function Yandex(url: string): (r: Result<Option<string>>)
  {
    if !Contains(url, "text=") then Ok(None)
    else
      var line := Partition(url, "text=").2;
      var beforeAnd := Partition(line, "&").0;
      if beforeAnd == [] then Ok(None)
      else match FirstWord(beforeAnd)
        case None => Err(IndexError)
        case Some(w) => Ok(Some(Plus(w)))
  }

  /** DuckDuckGo: only 'q=' is needed. */
  function DuckDuckGo(url: string): (r: Result<Option<string>>)
  {
    if !Contains(url, "q=") then Ok(None)
    else match BetweenQEqualsAndAmpersand(url)
      case Err(e) => Err(e)
      case Ok(line) => Ok(Some(Plus(line)))
  }

  /** Gmail: the path segment after the first 'search/', cut at '?compose'. */
  function Gmail(url: string): (r: Option<string>)
  {
    if !Contains(url, "search/") then None
    else
      var line := Partition(url, "search/").2;
      var first := Partition(line, "/").0;
      var second := Partition(first, "?compose").0;
      Some(Plus(second))
  }

  /**
   * A URL pre + key + value + rest, with key first met after pre, has the
   * value + rest after the key, and the value in front of the first stop
   * character when rest starts with one (or is empty) and value has none.
   */
  lemma KeyValue(pre: string, key: string, value: string, rest: string, stop: char)
    requires key != [] && FirstAt(pre + key + value + rest, key, |pre|)
    requires Lacks(value, stop) && (rest == [] || rest[0] == stop)
    ensures Partition(pre + key + value + rest, key).2 == value + rest
    ensures Partition(value + rest, [stop]).0 == value
  {
    assert pre + key + value + rest == pre + key + (value + rest);
    AfterKey(pre, key, value + rest);
    BeforeStop(value, rest, stop);
  }

  /** A term with no whitespace and no '&' after the first 'q=' is what _GetBetweenQEqualsAndAmbersand returns. */
  lemma QueryTerm(pre: string, term: string, rest: string)
    requires FirstAt(pre + "q=" + term + rest, "q=", |pre|)
    requires term != [] && Lacks(term, '&') && (rest == [] || rest[0] == '&')
    requires forall i :: 0 <= i < |term| ==> !IsSpace(term[i])
    ensures BetweenQEqualsAndAmpersand(pre + "q=" + term + rest) == Ok(term)
  {
    var s := pre + "q=" + term + rest;
    KeyValue(pre, "q=", term, rest, '&');
    assert Contains(s, "q=");
    FirstWordWhole(term);
  }

  lemma {:induction false} WordLengthAll(s: string)
    requires forall i :: 0 <= i < |s| ==> !IsSpace(s[i])
    ensures WordLength(s) == |s|
  {
    if s != [] {
      WordLengthAll(s[1..]);
    }
  }

  /** A non-empty run of non-whitespace is its own first word. */
  lemma FirstWordWhole(s: string)
    requires s != [] && forall i :: 0 <= i < |s| ==> !IsSpace(s[i])
    ensures FirstWord(s) == Some(s)
  {
    assert SpaceCount(s) == 0;
    WordLengthAll(s);
    assert s[0..|s|] == s;
  }

  /** Nothing between 'q=' and '&': the whole rest of the URL after 'q=' is returned, '&' included. */
  lemma EmptyQueryKeepsRest(pre: string, rest: string)
    requires FirstAt(pre + "q=" + rest, "q=", |pre|)
    requires rest != [] && rest[0] == '&'
    ensures BetweenQEqualsAndAmpersand(pre + "q=" + rest) == Ok(rest)
  {
    AfterKey(pre, "q=", rest);
    BeforeStop([], rest, '&');
    assert [] + rest == rest;
    assert Contains(pre + "q=" + rest, "q=");
  }

  /** A run of whitespace between 'q=' and '&' has no first word: IndexError. */
  lemma BlankQueryRaises(pre: string, term: string, rest: string)
    requires FirstAt(pre + "q=" + term + rest, "q=", |pre|)
    requires term != [] && forall i :: 0 <= i < |term| ==> IsSpace(term[i])
    requires rest == [] || rest[0] == '&'
    ensures BetweenQEqualsAndAmpersand(pre + "q=" + term + rest) == Err(IndexError)
  {
    assert Lacks(term, '&') by {
      forall i | 0 <= i < |term| ensures term[i] != '&' {
        assert IsSpace(term[i]);
      }
    }
    KeyValue(pre, "q=", term, rest, '&');
    assert Contains(pre + "q=" + term + rest, "q=");
  }

  /** GoogleSearch on a search URL with such a term: the term with '+' read as a space. */
  lemma GoogleTerm(pre: string, term: string, rest: string)
    requires FirstAt(pre + "q=" + term + rest, "q=", |pre|)
    requires Contains(pre + "q=" + term + rest, "search")
    requires term != [] && Lacks(term, '&') && (rest == [] || rest[0] == '&')
    requires forall i :: 0 <= i < |term| ==> !IsSpace(term[i])
    ensures GoogleSearch(pre + "q=" + term + rest) == Ok(Some(Plus(term)))
    ensures GenericSearch(pre + "q=" + term + rest) == Ok(Some(Plus(term)))
    ensures DuckDuckGo(pre + "q=" + term + rest) == Ok(Some(Plus(term)))
  {
    QueryTerm(pre, term, rest);
    assert Contains(pre + "q=" + term + rest, "q=");
  }

  /** Without 'search' only DuckDuckGo takes the term; without 'q=' nothing does. */
  lemma SearchNeeded(url: string)
    ensures !Contains(url, "search") ==> GoogleSearch(url) == Ok(None) && GenericSearch(url) == Ok(None)
    ensures !Contains(url, "q=") ==>
      GoogleSearch(url) == Ok(None) && GenericSearch(url) == Ok(None) && DuckDuckGo(url) == Ok(None)
  {
  }

  /** GoogleSearch differs from GenericSearch only in dropping an empty term. */
  lemma GoogleDropsEmpty(url: string)
    ensures GenericSearch(url) == Ok(Some([])) ==> GoogleSearch(url) == Ok(None)
    ensures GenericSearch(url) != Ok(Some([])) ==> GoogleSearch(url) == GenericSearch(url)
  {
  }

  /** Yandex: the word after the first 'text=' up to '&', with '+' read as a space. */
  lemma YandexTerm(pre: string, term: string, rest: string)
    requires FirstAt(pre + "text=" + term + rest, "text=", |pre|)
    requires term != [] && Lacks(term, '&') && (rest == [] || rest[0] == '&')
    requires forall i :: 0 <= i < |term| ==> !IsSpace(term[i])
    ensures Yandex(pre + "text=" + term + rest) == Ok(Some(Plus(term)))
  {
    KeyValue(pre, "text=", term, rest, '&');
    assert Contains(pre + "text=" + term + rest, "text=");
    FirstWordWhole(term);
  }

  /** Yandex with nothing between 'text=' and '&' yields no term. */
  lemma YandexEmpty(pre: string, rest: string)
    requires FirstAt(pre + "text=" + rest, "text=", |pre|)
    requires rest == [] || rest[0] == '&'
    ensures Yandex(pre + "text=" + rest) == Ok(None)
  {
    AfterKey(pre, "text=", rest);
    BeforeStop([], rest, '&');
    assert [] + rest == rest;
    assert Contains(pre + "text=" + rest, "text=");
  }

  /** Gmail: the segment after the first 'search/' up to the next '/', '+' read as a space. */
  lemma GmailTerm(pre: string, segment: string, rest: string)
    requires FirstAt(pre + "search/" + segment + rest, "search/", |pre|)
    requires Lacks(segment, '/') && (rest == [] || rest[0] == '/')
    requires !Contains(segment, "?compose")
    ensures Gmail(pre + "search/" + segment + rest) == Some(Plus(segment))
  {
    KeyValue(pre, "search/", segment, rest, '/');
    assert Contains(pre + "search/" + segment + rest, "search/");
  }

  /** Gmail cuts the segment at '?compose'. */
  lemma GmailCompose(pre: string, folder: string, tail: string, rest: string)
    requires FirstAt(pre + "search/" + folder + "?compose" + tail + rest, "search/", |pre|)
    requires Lacks(folder + "?compose" + tail, '/') && (rest == [] || rest[0] == '/')
    requires FirstAt(folder + "?compose" + tail, "?compose", |folder|)
    ensures Gmail(pre + "search/" + folder + "?compose" + tail + rest) == Some(Plus(folder))
  {
    var segment := folder + "?compose" + tail;
    assert pre + "search/" + folder + "?compose" + tail + rest == pre + "search/" + segment + rest;
    KeyValue(pre, "search/", segment, rest, '/');
    assert Contains(pre + "search/" + segment + rest, "search/");
    PartitionFirst(segment, "?compose", |folder|);
    assert segment[..|folder|] == folder;
  }

  /** The callbacks the plugin's filters are tied to. */
  datatype Callback = CallGoogleSearch | CallYouTube | CallBingSearch | CallGmail | CallYandex | CallDuckDuckGo

  /** The callback's name, which the counter keys start with. */
  function CallbackName(c: Callback): string
  {
    match c
      case CallGoogleSearch => "GoogleSearch"
      case CallYouTube => "YouTube"
      case CallBingSearch => "BingSearch"
      case CallGmail => "Gmail"
      case CallYandex => "Yandex"
      case CallDuckDuckGo => "DuckDuckGo"
  }

  /** The callback applied to a URL: the term, or None, or the exception it raises. */
  function Apply(c: Callback, url: string): Result<Option<string>>
  {
    match c
      case CallGoogleSearch => GoogleSearch(url)
      case CallYouTube => GenericSearch(url)
      case CallBingSearch => GenericSearch(url)
      case CallGmail => Ok(Gmail(url))
      case CallYandex => Yandex(url)
      case CallDuckDuckGo => DuckDuckGo(url)
  }

  /**
   * ScrubLine: '' for no term or an empty one; otherwise the term with its
   * %XX codes replaced and read as UTF-8, or the term itself when that
   * decoding fails.  urllib.unquote and the decoding are Python's and are
   * given as unquoteUtf8.
   */
  function ScrubLine(line: Option<string>, unquoteUtf8: string -> Option<string>): (r: string)
  {
    if line.None? || line.value == [] then []
    else match unquoteUtf8(line.value)
      case Some(u) => u
      case None => line.value
  }

  /** The counter key '{}:{}' of a callback and a term. */
  function CounterKey(c: Callback, term: string): string
  {
    CallbackName(c) + ":" + term
  }

  type Counter = map<string, nat>

  function Count(counter: Counter, key: string): nat
  {
    if key in counter then counter[key] else 0
  }

  /** One matching filter: its callback's scrubbed term is counted unless empty; an exception stops the event. */
  function CountOne(counter: Counter, url: string, c: Callback, unquoteUtf8: string -> Option<string>): (r: (Counter, Result<()>))
  {
    match Apply(c, url)
      case Err(e) => (counter, Err(e))
      case Ok(term) =>
        var line := ScrubLine(term, unquoteUtf8);
        if line == [] then (counter, Ok(()))
        else
          var key := CounterKey(c, line);
          (counter[key := Count(counter, key) + 1], Ok(()))
  }

  /** The matching filters in the order the filter dictionary yields them. */
  function CountAll(counter: Counter, url: string, matched: seq<Callback>, unquoteUtf8: string -> Option<string>): (r: (Counter, Result<()>))
    decreases |matched|
  {
    if matched == [] then (counter, Ok(()))
    else
      var before := CountAll(counter, url, matched[..|matched| - 1], unquoteUtf8);
      if before.1.Err? then before
      else CountOne(before.0, url, matched[|matched| - 1], unquoteUtf8)
  }

  /** One more matching filter after a prefix that raised nothing. */
  lemma CountAllStep(counter: Counter, url: string, matched: seq<Callback>, i: nat, unquoteUtf8: string -> Option<string>)
    requires i < |matched| && CountAll(counter, url, matched[..i], unquoteUtf8).1.Ok?
    ensures CountAll(counter, url, matched[..i + 1], unquoteUtf8)
         == CountOne(CountAll(counter, url, matched[..i], unquoteUtf8).0, url, matched[i], unquoteUtf8)
  {
    assert matched[..i + 1][..i] == matched[..i];
  }

  /** An exception ends the event: the filters after it change nothing. */
  lemma {:induction false} CountAllStops(counter: Counter, url: string, matched: seq<Callback>, i: nat, unquoteUtf8: string -> Option<string>)
    requires i <= |matched| && CountAll(counter, url, matched[..i], unquoteUtf8).1.Err?
    ensures CountAll(counter, url, matched, unquoteUtf8) == CountAll(counter, url, matched[..i], unquoteUtf8)
    decreases |matched| - i
  {
    if i < |matched| {
      assert matched[..i + 1][..i] == matched[..i];
      CountAllStops(counter, url, matched, i + 1, unquoteUtf8);
    } else {
      assert matched[..i] == matched;
    }
  }

  /** Whether key is counted under callback c: its name, ':' and a non-empty term. */
  predicate KeyOf(key: string, c: Callback)
  {
    StartsWith(key, CallbackName(c) + ":") && |key| > |CallbackName(c)| + 1
  }

  /** A count only grows, by at most one per matching filter, and only for keys of those filters with a term. */
  lemma {:induction false} CountAllEffect(counter: Counter, url: string, matched: seq<Callback>,
                                          unquoteUtf8: string -> Option<string>, key: string)
    ensures Count(counter, key) <= Count(CountAll(counter, url, matched, unquoteUtf8).0, key) <= Count(counter, key) + |matched|
    ensures (forall i :: 0 <= i < |matched| ==> !KeyOf(key, matched[i])) ==>
      Count(CountAll(counter, url, matched, unquoteUtf8).0, key) == Count(counter, key)
    decreases |matched|
  {
    if matched != [] {
      var prefix := matched[..|matched| - 1];
      var c := matched[|matched| - 1];
      CountAllEffect(counter, url, prefix, unquoteUtf8, key);
      var before := CountAll(counter, url, prefix, unquoteUtf8);
      if before.1.Ok? {
        match Apply(c, url)
        case Err(_) =>
        case Ok(term) =>
          var line := ScrubLine(term, unquoteUtf8);
          if line != [] && key == CounterKey(c, line) {
            assert CounterKey(c, line)[..|CallbackName(c) + ":"|] == CallbackName(c) + ":";
            assert KeyOf(key, c);
          }
      }
      if forall i :: 0 <= i < |matched| ==> !KeyOf(key, matched[i]) {
        assert forall i :: 0 <= i < |prefix| ==> prefix[i] == matched[i];
      }
    }
  }

  /**
   * An event changes a count only when it has a URL, comes from web
   * history and one of its matching filters yields a non-empty term for
   * that key.
   */
  lemma ExaminedChanges(counter: Counter, url: Option<string>, source: string, matched: seq<Callback>,
                        unquoteUtf8: string -> Option<string>, key: string)
    ensures Count(Examined(counter, url, source, matched, unquoteUtf8).0, key) != Count(counter, key) ==>
      url.Some? && url.value != [] && source == WEBHIST &&
      exists i :: 0 <= i < |matched| && KeyOf(key, matched[i])
  {
    if url.Some? && url.value != [] && source == WEBHIST {
      CountAllEffect(counter, url.value, matched, unquoteUtf8, key);
    }
  }

  const WEBHIST: string := "WEBHIST"

  /** ExamineEvent: only an event with a URL whose source is WEBHIST is looked at. */
  function Examined(counter: Counter, url: Option<string>, source: string, matched: seq<Callback>,
                    unquoteUtf8: string -> Option<string>): (r: (Counter, Result<()>))
  {
    if url.None? || url.value == [] || source != WEBHIST then (counter, Ok(()))
    else CountAll(counter, url.value, matched, unquoteUtf8)
  }

  // ---------------------------------------------------------------------
  // The report

  /** A dictionary as the pairs it yields. */
  type Assoc<V> = seq<(string, V)>

  /** d.get(k): the value paired with k. */
  function Lookup<V>(a: Assoc<V>, k: string): (r: Option<V>)
  {
    if a == [] then None
    else if a[0].0 == k then Some(a[0].1)
    else Lookup(a[1..], k)
  }

  /** d[k] = v: the pair for k replaced in place, or appended. */
  function Store<V>(a: Assoc<V>, k: string, v: V): (r: Assoc<V>)
    ensures Lookup(r, k) == Some(v)
  {
    if a == [] then [(k, v)]
    else if a[0].0 == k then [(k, v)] + a[1..]
    else [a[0]] + Store(a[1..], k, v)
  }

  /** Storing under k leaves every other key's value alone. */
  lemma {:induction false} StoreOther<V>(a: Assoc<V>, k: string, v: V, j: string)
    requires j != k
    ensures Lookup(Store(a, k, v), j) == Lookup(a, j)
    decreases |a|
  {
    if a != [] && a[0].0 != k {
      StoreOther(a[1..], k, v, j);
    }
  }

  type Results = Assoc<Assoc<nat>>

  /** One counter entry filed under its engine and term. */
  function File(results: Results, key: string, count: nat): Results
  {
    var parts := Partition(key, ":");
    var terms := match Lookup(results, parts.0) case Some(t) => t case None => [];
    Store(results, parts.0, Store(terms, parts.2, count))
  }

  /** The results after the counter's keys have been filed in the given order. */
  function Grouped(counter: Counter, order: seq<string>): Results
    requires forall i :: 0 <= i < |order| ==> order[i] in counter
    decreases |order|
  {
    if order == [] then []
    else File(Grouped(counter, order[..|order| - 1]), order[|order| - 1], counter[order[|order| - 1]])
  }

  lemma NameLacksColon(c: Callback)
    ensures Lacks(CallbackName(c), ':')
  {
  }

  lemma SplitAtColon(name: string, term: string)
    requires Lacks(name, ':')
    ensures Partition(name + ":" + term, ":") == (name, ":", term)
  {
    var key := name + ":" + term;
    forall j | 0 <= j < |name| ensures !At(key, ":", j) {
      assert key[j..j + 1] == [name[j]];
    }
    assert key[|name|..|name| + 1] == ":";
    PartitionFirst(key, ":", |name|);
    assert key[..|name|] == name && key[|name| + 1..] == term;
  }

  /** Splitting a counter key at its first ':' gives back the callback's name and the term. */
  lemma KeySplit(c: Callback, term: string)
    ensures Partition(CounterKey(c, term), ":") == (CallbackName(c), ":", term)
  {
    NameLacksColon(c);
    SplitAtColon(CallbackName(c), term);
  }

  /** The count stored under an engine and a term. */
  predicate Holds(results: Results, engine: string, term: string, count: nat)
  {
    Lookup(results, engine).Some? && Lookup(Lookup(results, engine).value, term) == Some(count)
  }

  /** Filing a key engine:term stores its count under its engine and term. */
  lemma FileStores(results: Results, key: string, count: nat, engine: string, term: string)
    requires Lacks(engine, ':') && key == engine + ":" + term
    ensures Holds(File(results, key, count), engine, term, count)
  {
    SplitAtColon(engine, term);
  }

  /** Filing another key keeps what is stored for engine:term with a non-empty term. */
  lemma FileKeeps(results: Results, key: string, count: nat, engine: string, term: string, old_count: nat)
    requires term != [] && key != engine + ":" + term
    requires Holds(results, engine, term, old_count)
    ensures Holds(File(results, key, count), engine, term, old_count)
  {
    var parts := Partition(key, ":");
    var terms := match Lookup(results, parts.0) case Some(t) => t case None => [];
    if parts.0 == engine {
      if parts.2 == term {
        assert false;
      }
      StoreOther(terms, parts.2, count, term);
    } else {
      StoreOther(results, parts.0, Store(terms, parts.2, count), engine);
    }
  }

  lemma GroupedLast(counter: Counter, order: seq<string>)
    requires order != [] && forall j :: 0 <= j < |order| ==> order[j] in counter
    ensures Grouped(counter, order) == File(Grouped(counter, order[..|order| - 1]), order[|order| - 1], counter[order[|order| - 1]])
  {
  }

  /** Filing a key stores engine:term's count if it is that key, and keeps what was stored otherwise. */
  lemma FileHolds(results: Results, k: string, n: nat, key: string, engine: string, term: string, count: nat)
    requires Lacks(engine, ':') && key == engine + ":" + term && term != []
    requires k == key ==> n == count
    requires k != key ==> Holds(results, engine, term, count)
    ensures Holds(File(results, k, n), engine, term, count)
  {
    if k == key {
      FileStores(results, k, n, engine, term);
    } else {
      FileKeeps(results, k, n, engine, term, count);
    }
  }

  /** Filing the last key stores engine:term's count, or keeps what the earlier keys stored for it. */
  lemma GroupedStep(counter: Counter, order: seq<string>, key: string, engine: string, term: string)
    requires order != [] && forall j :: 0 <= j < |order| ==> order[j] in counter
    requires Lacks(engine, ':') && key == engine + ":" + term && term != [] && key in counter
    requires order[|order| - 1] == key || Holds(Grouped(counter, order[..|order| - 1]), engine, term, counter[key])
    ensures Holds(Grouped(counter, order), engine, term, counter[key])
  {
    var n := |order| - 1;
    GroupedLast(counter, order);
    FileHolds(Grouped(counter, order[..n]), order[n], counter[order[n]], key, engine, term, counter[key]);
  }

  lemma {:induction false} GroupedHolds(counter: Counter, order: seq<string>, key: string, engine: string, term: string, i: nat)
    requires forall j :: 0 <= j < |order| ==> order[j] in counter
    requires Lacks(engine, ':') && key == engine + ":" + term && term != [] && i < |order| && order[i] == key
    ensures Holds(Grouped(counter, order), engine, term, counter[key])
    decreases |order|
  {
    var n := |order| - 1;
    if i < n && order[n] != key {
      assert order[..n][i] == key;
      GroupedHolds(counter, order[..n], key, engine, term, i);
    }
    GroupedStep(counter, order, key, engine, term);
  }

  /**
   * The results hold, for every counter key with a non-empty term among
   * those filed, its count under its engine and term.
   */
  lemma GroupedFinds(counter: Counter, order: seq<string>, c: Callback, term: string, i: nat)
    requires forall j :: 0 <= j < |order| ==> order[j] in counter
    requires term != [] && i < |order| && order[i] == CounterKey(c, term)
    ensures Holds(Grouped(counter, order), CallbackName(c), term, counter[CounterKey(c, term)])
  {
    NameLacksColon(c);
    GroupedHolds(counter, order, CounterKey(c, term), CallbackName(c), term, i);
  }

  predicate EngineBefore(a: (string, Assoc<nat>), b: (string, Assoc<nat>))
  {
    StrLess(a.0, b.0)
  }

  /** (count, term) descending. */
  predicate TermBefore(a: (string, nat), b: (string, nat))
  {
    a.1 > b.1 || (a.1 == b.1 && StrLess(b.0, a.0))
  }

  /** A term's line: its count in decimal, a space and the term. */
  function TermLine(term: (string, nat)): string
  {
    NatToStr(term.1) + " " + term.0
  }

  function TermLines(terms: Assoc<nat>): (r: seq<string>)
    ensures |r| == |terms|
  {
    if terms == [] then [] else [TermLine(terms[0])] + TermLines(terms[1..])
  }

  lemma {:induction false} TermLinesAppend(terms: Assoc<nat>, last: (string, nat))
    ensures TermLines(terms + [last]) == TermLines(terms) + [TermLine(last)]
    decreases |terms|
  {
    if terms == [] {
      assert TermLines([last]) == [TermLine(last)] + TermLines([]);
    } else {
      assert (terms + [last])[1..] == terms[1..] + [last];
      TermLinesAppend(terms[1..], last);
    }
  }

  /** An engine's block: its header, its terms in order and an empty line. */
  function Block(engine: (string, Assoc<nat>)): seq<string>
  {
    [" == ENGINE: " + engine.0 + " =="] + TermLines(Sort(engine.1, TermBefore)) + [""]
  }

  function Blocks(engines: Results): seq<string>
    decreases |engines|
  {
    if engines == [] then [] else Block(engines[0]) + Blocks(engines[1..])
  }

  lemma {:induction false} BlocksAppend(engines: Results, last: (string, Assoc<nat>))
    ensures Blocks(engines + [last]) == Blocks(engines) + Block(last)
    decreases |engines|
  {
    if engines == [] {
      assert Blocks([last]) == Block(last) + Blocks([]);
    } else {
      assert (engines + [last])[1..] == engines[1..] + [last];
      BlocksAppend(engines[1..], last);
    }
  }

  lemma BlocksStep(engines: Results, e: nat)
    requires e < |engines|
    ensures Blocks(engines[..e + 1]) == Blocks(engines[..e]) + Block(engines[e])
  {
    BlocksAppend(engines[..e], engines[e]);
    assert engines[..e + 1] == engines[..e] + [engines[e]];
  }

  lemma EngineOrder()
    ensures StrictOrder(EngineBefore)
  {
    StrLessOrder();
  }

  lemma TermOrder()
    ensures StrictOrder(TermBefore)
  {
    StrLessOrder();
  }

  /** The report's engines are in ascending name order and hold exactly the results' engines. */
  lemma EnginesAscending(results: Results)
    ensures multiset(Sort(results, EngineBefore)) == multiset(results)
    ensures forall i, j :: 0 <= i < j < |results| ==>
      !StrLess(Sort(results, EngineBefore)[j].0, Sort(results, EngineBefore)[i].0)
  {
    EngineOrder();
    SortSorted(results, EngineBefore);
  }

  /**
   * A block's terms are those of its engine, by count descending and, at
   * equal counts, by term descending.
   */
  lemma TermsDescending(terms: Assoc<nat>)
    ensures multiset(Sort(terms, TermBefore)) == multiset(terms)
    ensures forall i, j :: 0 <= i < j < |terms| ==>
      Sort(terms, TermBefore)[i].1 >= Sort(terms, TermBefore)[j].1 &&
      (Sort(terms, TermBefore)[i].1 == Sort(terms, TermBefore)[j].1 ==>
         !StrLess(Sort(terms, TermBefore)[i].0, Sort(terms, TermBefore)[j].0))
  {
    TermOrder();
    SortSorted(terms, TermBefore);
  }

  lemma {:induction false} TermLinesAt(terms: Assoc<nat>, i: nat)
    requires i < |terms|
    ensures TermLines(terms)[i] == TermLine(terms[i])
    decreases i
  {
    if i > 0 {
      TermLinesAt(terms[1..], i - 1);
    }
  }

  /** A block is the engine's header, one line per term in report order, and an empty line. */
  lemma BlockShape(engine: (string, Assoc<nat>))
    ensures |Block(engine)| == |engine.1| + 2
    ensures Block(engine)[0] == " == ENGINE: " + engine.0 + " =="
    ensures Block(engine)[|engine.1| + 1] == ""
    ensures forall i :: 0 <= i < |engine.1| ==> Block(engine)[i + 1] == TermLine(Sort(engine.1, TermBefore)[i])
  {
    var terms := Sort(engine.1, TermBefore);
    forall i | 0 <= i < |engine.1| ensures Block(engine)[i + 1] == TermLine(terms[i]) {
      TermLinesAt(terms, i);
    }
  }

  /** The report's lines: the engines by name, each as its block. */
  function ReportLines(results: Results): seq<string>
  {
    Blocks(Sort(results, EngineBefore))
  }

  class AnalyzeBrowserSearchPlugin {
    var counter: Counter
    const unquoteUtf8: string -> Option<string>

    constructor(unquoteUtf8: string -> Option<string>)
      ensures counter == map[] && this.unquoteUtf8 == unquoteUtf8
    {
      counter := map[];
      this.unquoteUtf8 := unquoteUtf8;
    }

    /**
     * ExamineEvent for an event's url (None when it has none), its source
     * string and the callbacks of the filters that match it.
     */
    method ExamineEvent(url: Option<string>, source: string, matched: seq<Callback>) returns (r: Result<()>)
      modifies this
      ensures (counter, r) == Examined(old(counter), url, source, matched, unquoteUtf8)
    {
      if url.None? || url.value == [] || source != WEBHIST {
        return Ok(());
      }
      var c := counter;
      var u := url.value;
      var i := 0;
      while i < |matched|
        invariant 0 <= i <= |matched|
        invariant CountAll(old(counter), u, matched[..i], unquoteUtf8) == (c, Ok(()))
      {
        CountAllStep(old(counter), u, matched, i, unquoteUtf8);
        var step := CountOne(c, u, matched[i], unquoteUtf8);
        if step.1.Err? {
          CountAllStops(old(counter), u, matched, i + 1, unquoteUtf8);
          counter := c;
          return step.1;
        }
        c := step.0;
        i := i + 1;
      }
      assert matched[..i] == matched;
      counter := c;
      return Ok(());
    }

    /**
     * CompileReport, for the counter's keys in the order the counter yields
     * them: the results by engine and term, and the report's lines.
     */
    method CompileReport(order: seq<string>) returns (results: Results, lines: seq<string>)
      requires forall i :: 0 <= i < |order| ==> order[i] in counter
      ensures results == Grouped(counter, order)
      ensures lines == ReportLines(results)
    {
      results := [];
      var i := 0;
      while i < |order|
        invariant 0 <= i <= |order|
        invariant results == Grouped(counter, order[..i])
      {
        assert order[..i + 1][..i] == order[..i];
        results := File(results, order[i], counter[order[i]]);
        i := i + 1;
      }
      assert order[..i] == order;
      lines := WriteBlocks(Sort(results, EngineBefore));
    }
  }

  /** One line per term, count first. */
  method WriteTerms(terms: Assoc<nat>) returns (body: seq<string>)
    ensures body == TermLines(terms)
  {
    body := [];
    var t := 0;
    while t < |terms|
      invariant 0 <= t <= |terms|
      invariant body == TermLines(terms[..t])
    {
      TermLinesAppend(terms[..t], terms[t]);
      assert terms[..t + 1] == terms[..t] + [terms[t]];
      body := body + [TermLine(terms[t])];
      t := t + 1;
    }
    assert terms[..t] == terms;
  }

  /** The lines of one engine's block. */
  method WriteBlock(engine: (string, Assoc<nat>)) returns (lines: seq<string>)
    ensures lines == Block(engine)
  {
    var body := WriteTerms(Sort(engine.1, TermBefore));
    lines := [" == ENGINE: " + engine.0 + " =="] + body + [""];
  }

  /** The blocks of the engines in the order given. */
  method WriteBlocks(engines: Results) returns (lines: seq<string>)
    ensures lines == Blocks(engines)
  {
    lines := [];
    var e := 0;
    while e < |engines|
      invariant 0 <= e <= |engines|
      invariant lines == Blocks(engines[..e])
    {
      var block := WriteBlock(engines[e]);
      BlocksStep(engines, e);
      lines := lines + block;
      e := e + 1;
    }
    assert engines[..e] == engines;
  }
}
