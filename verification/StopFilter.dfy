/** Stop strings: the streaming filter against truncating the finished text
    (serving/server.py). The two agree on every text and every chunking exactly when no
    stop can complete inside another one before the other is caught by a prefix of it. */
module StopFilter {

  // ---- occurrences ----

  predicate OccursAt(text: string, marker: string, i: nat) {
    i + |marker| <= |text| && text[i..i + |marker|] == marker
  }

  /** Some stop starts at i. */
  predicate StopAt(text: string, stops: seq<string>, i: nat) {
    exists k :: 0 <= k < |stops| && stops[k] != "" && OccursAt(text, stops[k], i)
  }

  predicate HasStop(text: string, stops: seq<string>) {
    exists i :: 0 <= i <= |text| && StopAt(text, stops, i)
  }

  /** The first position from i on where a stop starts, or |text| + 1. */
  function FirstStop(text: string, stops: seq<string>, i: nat): (r: nat)
    requires i <= |text| + 1
    ensures i <= r <= |text| + 1
    ensures r <= |text| ==> StopAt(text, stops, r)
    ensures forall j :: i <= j < r ==> !StopAt(text, stops, j)
    decreases |text| + 1 - i
  {
    if i > |text| || StopAt(text, stops, i) then i else FirstStop(text, stops, i + 1)
  }

  /** What the batch path returns: the text up to the earliest stop. */
  function Truncated(text: string, stops: seq<string>): string {
    var cut := FirstStop(text, stops, 0);
    if cut <= |text| then text[..cut] else text
  }

  // ---- the streaming filter as values ----

  datatype Filter = Filter(buffer: string, matched: bool)

  /** The last p characters could be the beginning of a stop. */
  predicate Held(text: string, stops: seq<string>, p: nat) {
    p <= |text| &&
    exists k :: 0 <= k < |stops| && p < |stops[k]| && stops[k][..p] == text[|text| - p..]
  }

  /** The longest tail, of at most p characters, that has to be withheld. */
  function KeepLength(text: string, stops: seq<string>, p: nat): (r: nat)
    requires p <= |text|
    ensures r <= p && (r > 0 ==> Held(text, stops, r))
    ensures forall q :: r < q <= p ==> !Held(text, stops, q)
    decreases p
  {
    if p == 0 || Held(text, stops, p) then p else KeepLength(text, stops, p - 1)
  }

  function AfterChunk(stops: seq<string>, f: Filter, text: string): (Filter, string) {
    if f.matched || text == "" then (f, "")
    else
      var buffer := f.buffer + text;
      var cut := FirstStop(buffer, stops, 0);
      if cut <= |buffer| then (Filter("", true), buffer[..cut])
      else
        var keep := KeepLength(buffer, stops, |buffer|);
        (Filter(buffer[|buffer| - keep..], false), buffer[..|buffer| - keep])
  }

  function Remainder(f: Filter): string { if f.matched then "" else f.buffer }

  function FeedAll(stops: seq<string>, chunks: seq<string>): (Filter, string) {
    if chunks == [] then (Filter("", false), "") else
    var (f, out) := FeedAll(stops, chunks[..|chunks| - 1]);
    var (g, more) := AfterChunk(stops, f, chunks[|chunks| - 1]);
    (g, out + more)
  }

  /** Everything a stream shows its client. */
  function Streamed(stops: seq<string>, chunks: seq<string>): string {
    FeedAll(stops, chunks).1 + Remainder(FeedAll(stops, chunks).0)
  }

  function Joined(chunks: seq<string>): string {
    if chunks == [] then "" else Joined(chunks[..|chunks| - 1]) + chunks[|chunks| - 1]
  }

  // ---- what the filter knows while nothing has matched ----

  /** Nothing matched in `text`, of which `out` has been shown and `buffer` withheld: the
      longest tail of the text that may begin a stop, and nothing if no tail may. */
  ghost predicate Waiting(stops: seq<string>, text: string, out: string, buffer: string) {
    && text == out + buffer && !HasStop(text, stops)
    && (buffer == "" || Held(text, stops, |buffer|))
    && forall p :: |buffer| < p <= |text| ==> !Held(text, stops, p)
  }

  /** A stop of a longer text is a stop of the shorter one, or reaches past its end. */
  lemma EarlierOrBeyond(text: string, longer: string, stops: seq<string>, k: nat, i: nat)
    requires text <= longer && k < |stops| && stops[k] != "" && OccursAt(longer, stops[k], i)
    ensures StopAt(text, stops, i) || i + |stops[k]| > |text|
  {
    var m := stops[k];
    if i + |m| <= |text| {
      assert text[i..i + |m|] == longer[i..i + |m|];
      assert OccursAt(text, m, i);
    }
  }

  lemma TailBeginsStop(text: string, longer: string, stops: seq<string>, k: nat, i: nat)
    requires text <= longer && k < |stops| && OccursAt(longer, stops[k], i) && i < |text| < i + |stops[k]|
    ensures Held(text, stops, |text| - i)
  {
    var p := |text| - i;
    assert stops[k][..p] == longer[i..i + |stops[k]|][..p] == text[|text| - p..];
  }

  /** A stop that starts in shown text would have had to begin in a withheld tail. */
  lemma NewStopsStartInBuffer(stops: seq<string>, text: string, out: string, buffer: string, more: string, i: nat)
    requires Waiting(stops, text, out, buffer) && StopAt(text + more, stops, i)
    ensures i >= |out| && StopAt(buffer + more, stops, i - |out|)
  {
    var k :| 0 <= k < |stops| && stops[k] != "" && OccursAt(text + more, stops[k], i);
    EarlierOrBeyond(text, text + more, stops, k, i);
    if i < |text| < i + |stops[k]| { TailBeginsStop(text, text + more, stops, k, i); }
    assert text + more == out + (buffer + more);
    assert OccursAt(buffer + more, stops[k], i - |out|);
  }

  lemma StopsInBufferAreStops(stops: seq<string>, out: string, buffer: string, i: nat)
    requires StopAt(buffer, stops, i)
    ensures StopAt(out + buffer, stops, |out| + i)
  {
    var k :| 0 <= k < |stops| && stops[k] != "" && OccursAt(buffer, stops[k], i);
    assert OccursAt(out + buffer, stops[k], |out| + i);
  }

  /** A chunk that completes no stop leaves the filter waiting on the longer text. */
  lemma StillWaiting(stops: seq<string>, text: string, out: string, buffer: string, more: string)
    requires Waiting(stops, text, out, buffer)
    requires FirstStop(buffer + more, stops, 0) == |buffer + more| + 1
    ensures var whole := buffer + more; var keep := KeepLength(whole, stops, |whole|);
      Waiting(stops, text + more, out + whole[..|whole| - keep], whole[|whole| - keep..])
  {
    hide Held;
    hide StopAt;
    var whole := buffer + more;
    var keep := KeepLength(whole, stops, |whole|);
    assert text + more == out + whole;
    assert out + whole[..|whole| - keep] + whole[|whole| - keep..] == out + whole;
    forall i | 0 <= i <= |text + more| ensures !StopAt(text + more, stops, i) {
      if StopAt(text + more, stops, i) { NewStopsStartInBuffer(stops, text, out, buffer, more, i); }
    }
    HeldTail(out, whole, stops, keep);
    forall p | keep < p <= |text + more| ensures !Held(text + more, stops, p) {
      if p <= |whole| {
        HeldTail(out, whole, stops, p);
      } else if Held(text + more, stops, p) {
        HeldBefore(text, more, stops, p);
      }
    }
  }

  /** A short tail is the same whatever comes in front. */
  lemma HeldTail(out: string, whole: string, stops: seq<string>, p: nat)
    requires p <= |whole|
    ensures Held(out + whole, stops, p) <==> Held(whole, stops, p)
  {
    assert (out + whole)[|out + whole| - p..] == whole[|whole| - p..];
  }

  /** A tail that begins a stop and is longer than the last chunk began it before. */
  lemma HeldBefore(text: string, more: string, stops: seq<string>, p: nat)
    requires |more| < p <= |text + more| && Held(text + more, stops, p)
    ensures Held(text, stops, p - |more|)
  {
    var k :| 0 <= k < |stops| && p < |stops[k]| && stops[k][..p] == (text + more)[|text + more| - p..];
    var q := p - |more|;
    assert stops[k][..q] == stops[k][..p][..q] == text[|text| - q..];
  }

  /** After any chunks: either the filter is still waiting on the whole text, or some
      prefix of the chunks was the first to contain a stop, and the output is that
      prefix of the text up to its earliest stop. */
  lemma {:induction false} StreamState(stops: seq<string>, chunks: seq<string>)
    ensures var (f, out) := FeedAll(stops, chunks);
      if f.matched then
        exists n :: 0 <= n <= |chunks| && HasStop(Joined(chunks[..n]), stops) && out == Truncated(Joined(chunks[..n]), stops)
      else Waiting(stops, Joined(chunks), out, f.buffer)
  {
    hide HasStop;
    hide FirstStop;
    hide Truncated;
    hide KeepLength;
    hide Waiting;
    if chunks == [] {
      NothingYet(stops);
    } else {
      var last := |chunks| - 1;
      var (f, out) := FeedAll(stops, chunks[..last]);
      StreamState(stops, chunks[..last]);
      if f.matched {
        var n :| 0 <= n <= last && HasStop(Joined(chunks[..last][..n]), stops)
          && out == Truncated(Joined(chunks[..last][..n]), stops);
        assert chunks[..last][..n] == chunks[..n];
        assert out + "" == out;
      } else if chunks[last] == "" {
        assert Joined(chunks) == Joined(chunks[..last]) && out + "" == out;
      } else {
        Fed(stops, Joined(chunks[..last]), out, f.buffer, chunks[last]);
        assert chunks[..|chunks|] == chunks;
      }
    }
  }

  /** The filter has matched exactly if the text so far contains a stop. Until then it has
      shown all but the longest tail that may begin one. */
  lemma WithheldIsLongest(stops: seq<string>, chunks: seq<string>)
    ensures var (f, out) := FeedAll(stops, chunks); var text := Joined(chunks);
      && (f.matched <==> HasStop(text, stops))
      && (!f.matched ==>
            && text == out + f.buffer && (f.buffer == "" || Held(text, stops, |f.buffer|))
            && forall p :: |f.buffer| < p <= |text| ==> !Held(text, stops, p))
  {
    hide Held;
    hide StopAt;
    StreamState(stops, chunks);
    var (f, out) := FeedAll(stops, chunks);
    if f.matched {
      var n :| 0 <= n <= |chunks| && HasStop(Joined(chunks[..n]), stops);
      JoinedPrefix(chunks, n);
      var i :| 0 <= i <= |Joined(chunks[..n])| && StopAt(Joined(chunks[..n]), stops, i);
      StopsStay(Joined(chunks[..n]), Joined(chunks), stops, i);
    }
  }

  lemma NothingYet(stops: seq<string>)
    ensures Waiting(stops, "", "", "")
  {
    assert forall i :: 0 <= i <= 0 ==> !StopAt("", stops, i);
  }

  lemma Fed(stops: seq<string>, text: string, out: string, buffer: string, more: string)
    requires Waiting(stops, text, out, buffer) && more != ""
    ensures var (g, shown) := AfterChunk(stops, Filter(buffer, false), more);
      if g.matched then HasStop(text + more, stops) && out + shown == Truncated(text + more, stops)
      else Waiting(stops, text + more, out + shown, g.buffer)
  {
    hide Held;
    hide StopAt;
    var whole := buffer + more;
    var cut := FirstStop(whole, stops, 0);
    assert text + more == out + whole;
    if cut <= |whole| {
      StopsInBufferAreStops(stops, out, whole, cut);
      var first := FirstStop(text + more, stops, 0);
      NewStopsStartInBuffer(stops, text, out, buffer, more, first);
      assert out + whole[..cut] == (text + more)[..|out| + cut];
    } else {
      StillWaiting(stops, text, out, buffer, more);
    }
  }

  // ---- streaming against batch ----

  lemma {:induction false} JoinedPrefix(chunks: seq<string>, n: nat)
    requires n <= |chunks|
    ensures Joined(chunks[..n]) <= Joined(chunks)
  {
    if n == |chunks| {
      assert chunks[..n] == chunks;
    } else {
      JoinedPrefix(chunks[..|chunks| - 1], n);
      assert chunks[..|chunks| - 1][..n] == chunks[..n];
    }
  }

  lemma StopsStay(text: string, longer: string, stops: seq<string>, i: nat)
    requires text <= longer && StopAt(text, stops, i)
    ensures StopAt(longer, stops, i)
  {
    var k :| 0 <= k < |stops| && stops[k] != "" && OccursAt(text, stops[k], i);
    assert OccursAt(longer, stops[k], i);
  }

  /** The stream shows the text truncated at the earliest stop of the first prefix that
      contains one, or the whole text. */
  lemma StreamShows(stops: seq<string>, chunks: seq<string>)
    ensures var text := Joined(chunks);
      || (!HasStop(text, stops) && Streamed(stops, chunks) == text)
      || exists n :: 0 <= n <= |chunks| && HasStop(Joined(chunks[..n]), stops)
           && Streamed(stops, chunks) == Truncated(Joined(chunks[..n]), stops)
  {
    StreamState(stops, chunks);
    var (f, out) := FeedAll(stops, chunks);
    if f.matched { assert out + "" == out; }
  }

  /** The stream never shows less than the batch path, whatever the stops: the batch result
      is a prefix of what was streamed. */
  lemma BatchIsPrefixOfStream(stops: seq<string>, chunks: seq<string>)
    ensures Truncated(Joined(chunks), stops) <= Streamed(stops, chunks)
  {
    StreamShows(stops, chunks);
    var text := Joined(chunks);
    if !(!HasStop(text, stops) && Streamed(stops, chunks) == text) {
      var n :| 0 <= n <= |chunks| && HasStop(Joined(chunks[..n]), stops)
        && Streamed(stops, chunks) == Truncated(Joined(chunks[..n]), stops);
      JoinedPrefix(chunks, n);
      var cut := FirstStop(Joined(chunks[..n]), stops, 0);
      StopsStay(Joined(chunks[..n]), text, stops, cut);
      assert FirstStop(text, stops, 0) <= cut;
    }
  }

  /** No stop completes inside another before some stop that is a prefix of that other. */
  ghost predicate CaughtEarly(stops: seq<string>) {
    forall k :: 0 <= k < |stops| && stops[k] != "" && HasStop(stops[k][..|stops[k]| - 1], stops) ==>
      HasProperPrefix(stops, k)
  }

  ghost predicate HasProperPrefix(stops: seq<string>, k: nat)
    requires k < |stops|
  {
    exists j :: 0 <= j < |stops| && stops[j] != "" && stops[j] < stops[k]
  }

  /** The shortest stop that starts where stops[k] does has no other stop inside. */
  lemma {:induction false} ShortestPrefix(stops: seq<string>, k: nat) returns (j: nat)
    requires CaughtEarly(stops) && k < |stops| && stops[k] != ""
    ensures j < |stops| && stops[j] != "" && stops[j] <= stops[k]
    ensures !HasStop(stops[j][..|stops[j]| - 1], stops)
    decreases |stops[k]|
  {
    if HasStop(stops[k][..|stops[k]| - 1], stops) {
      assert HasProperPrefix(stops, k);
      var i :| 0 <= i < |stops| && stops[i] != "" && stops[i] < stops[k];
      j := ShortestPrefix(stops, i);
    } else {
      j := k;
    }
  }

  /** With stops caught early, the first prefix of the text that contains a stop already
      contains the earliest one. */
  lemma EarliestIsSeenFirst(stops: seq<string>, seen: string, text: string)
    requires CaughtEarly(stops) && seen <= text && HasStop(seen, stops)
    ensures FirstStop(seen, stops, 0) == FirstStop(text, stops, 0)
  {
    hide StopAt;
    hide CaughtEarly;
    var i := FirstStop(seen, stops, 0);
    var j := FirstStop(text, stops, 0);
    StopsStay(seen, text, stops, i);
    NotBefore(stops, seen, text, i, j);
  }

  lemma NotBefore(stops: seq<string>, seen: string, text: string, i: nat, j: nat)
    requires CaughtEarly(stops) && seen <= text && StopAt(seen, stops, i) && StopAt(text, stops, j)
    requires forall x :: 0 <= x < i ==> !StopAt(seen, stops, x)
    ensures i <= j
  {
    hide CaughtEarly;
    if j < i {
      var k :| 0 <= k < |stops| && stops[k] != "" && OccursAt(text, stops[k], j);
      var s := ShortestPrefix(stops, k);
      PrefixOccurs(text, stops[k], stops[s], j);
      EarlierOrBeyond(seen, text, stops, s, j);
      if j + |stops[s]| > |seen| { StopInside(stops, seen, text, i, j, stops[s]); }
      assert false;
    }
  }

  lemma PrefixOccurs(text: string, m: string, p: string, i: nat)
    requires p <= m && OccursAt(text, m, i)
    ensures OccursAt(text, p, i)
  {
    assert text[i..i + |p|] == text[i..i + |m|][..|p|];
  }

  lemma Shifted(text: string, j: nat, width: nat, d: nat, n: nat)
    requires j + width <= |text| && d + n <= width
    ensures text[j..j + width][d..d + n] == text[j + d..j + d + n]
  {
    var a, b := text[j..j + width][d..d + n], text[j + d..j + d + n];
    assert |a| == |b| == n;
    forall i | 0 <= i < n ensures a[i] == b[i] {}
  }

  /** A stop of the seen text that starts inside m and is complete lies before m's last character. */
  lemma StopInside(stops: seq<string>, seen: string, text: string, i: nat, j: nat, m: string)
    requires seen <= text && StopAt(seen, stops, i) && j < i && OccursAt(text, m, j) && j + |m| > |seen|
    ensures HasStop(m[..|m| - 1], stops)
  {
    var k :| 0 <= k < |stops| && stops[k] != "" && OccursAt(seen, stops[k], i);
    var n := stops[k];
    var init := m[..|m| - 1];
    var d := i - j;
    assert seen[i..i + |n|] == text[i..i + |n|];
    Shifted(text, j, |m|, d, |n|);
    assert init[d..d + |n|] == m[d..d + |n|];
    assert OccursAt(init, n, d);
    assert StopAt(init, stops, d);
  }

  ghost predicate AgreeAlways(stops: seq<string>) {
    forall chunks: seq<string> :: Streamed(stops, chunks) == Truncated(Joined(chunks), stops)
  }

  lemma StreamEqualsBatch(stops: seq<string>, chunks: seq<string>)
    requires CaughtEarly(stops)
    ensures Streamed(stops, chunks) == Truncated(Joined(chunks), stops)
  {
    hide Streamed;
    hide CaughtEarly;
    hide Joined;
    StreamShows(stops, chunks);
    var text := Joined(chunks);
    if !(!HasStop(text, stops) && Streamed(stops, chunks) == text) {
      var n :| 0 <= n <= |chunks| && HasStop(Joined(chunks[..n]), stops)
        && Streamed(stops, chunks) == Truncated(Joined(chunks[..n]), stops);
      JoinedPrefix(chunks, n);
      EarliestIsSeenFirst(stops, Joined(chunks[..n]), text);
    }
  }

  lemma StopNeedsText(text: string, stops: seq<string>, i: nat)
    requires StopAt(text, stops, i)
    ensures i < |text|
  {
  }

  lemma BeginsWithStop(stops: seq<string>, k: nat)
    requires k < |stops| && stops[k] != "" && StopAt(stops[k][..|stops[k]| - 1], stops, 0)
    ensures HasProperPrefix(stops, k)
  {
    var j :| 0 <= j < |stops| && stops[j] != "" && OccursAt(stops[k][..|stops[k]| - 1], stops[j], 0);
    assert stops[j] < stops[k];
  }

  /** A stop that is not caught early betrays itself when its last character comes alone. */
  lemma LastCharacterAlone(stops: seq<string>, k: nat)
    requires k < |stops| && stops[k] != "" && HasStop(stops[k][..|stops[k]| - 1], stops) && !HasProperPrefix(stops, k)
    ensures var m := stops[k]; var chunks := [m[..|m| - 1], m[|m| - 1..]];
      Streamed(stops, chunks) != Truncated(Joined(chunks), stops)
  {
    hide HasProperPrefix;
    var m := stops[k];
    var init, last := m[..|m| - 1], m[|m| - 1..];
    WholeStop(stops, k);
    var i := FirstStop(init, stops, 0);
    if i == 0 {
      BeginsWithStop(stops, k);
      assert false;
    }
    MatchedAlready(stops, init, last);
  }

  /** Batch shows nothing of a text that is itself a stop. */
  lemma WholeStop(stops: seq<string>, k: nat)
    requires k < |stops| && stops[k] != ""
    ensures var m := stops[k]; Truncated(Joined([m[..|m| - 1], m[|m| - 1..]]), stops) == ""
  {
    var m := stops[k];
    var init, last := m[..|m| - 1], m[|m| - 1..];
    var chunks := [init, last];
    assert chunks[..1] == [init] && [init][..0] == [];
    assert "" + init == init;
    assert Joined([init]) == init && Joined(chunks) == init + last == m;
    assert OccursAt(m, m, 0) && StopAt(m, stops, 0);
  }

  /** After a match the stream shows what came before it, whatever else arrives. */
  lemma MatchedAlready(stops: seq<string>, first: string, rest: string)
    requires HasStop(first, stops)
    ensures Streamed(stops, [first, rest]) == first[..FirstStop(first, stops, 0)]
  {
    var i := FirstStop(first, stops, 0);
    var w :| 0 <= w <= |first| && StopAt(first, stops, w);
    StopNeedsText(first, stops, w);
    assert [first, rest][..1] == [first] && [first][..0] == [];
    assert FeedAll(stops, [first]) == (Filter("", true), first[..i]) by {
      assert "" + first == first;
      assert FeedAll(stops, []) == (Filter("", false), "");
      assert "" + first[..i] == first[..i];
    }
    hide FirstStop;
    hide KeepLength;
    assert first[..i] + "" == first[..i];
  }

  /** Streaming agrees with the batch path, for every text in every chunking, exactly when
      every stop that contains another before its last character also begins with one. */
  lemma AgreeIffCaughtEarly(stops: seq<string>)
    ensures AgreeAlways(stops) <==> CaughtEarly(stops)
  {
    if CaughtEarly(stops) {
      hide CaughtEarly;
      hide Streamed;
      forall chunks: seq<string> ensures Streamed(stops, chunks) == Truncated(Joined(chunks), stops) {
        StreamEqualsBatch(stops, chunks);
      }
    } else {
      var k :| 0 <= k < |stops| && stops[k] != "" && HasStop(stops[k][..|stops[k]| - 1], stops)
        && !HasProperPrefix(stops, k);
      LastCharacterAlone(stops, k);
    }
  }

  /** In particular they agree when no stop occurs inside another. */
  lemma AgreeWhenNotNested(stops: seq<string>)
    requires forall k :: 0 <= k < |stops| && stops[k] != "" ==> !HasStop(stops[k][..|stops[k]| - 1], stops)
    ensures AgreeAlways(stops)
  {
    AgreeIffCaughtEarly(stops);
  }

  /** And they need not: with stops "bc" and "abcd", the text "abcd" sent as "abc", "d". */
  lemma NestedStopsDisagree()
    ensures Streamed(["bc", "abcd"], ["abc", "d"]) != Truncated(Joined(["abc", "d"]), ["bc", "abcd"])
  {
    var stops := ["bc", "abcd"];
    assert OccursAt("abc", "bc", 1);
    assert stops[1][..|stops[1]| - 1] == "abc" && stops[1][|stops[1]| - 1..] == "d";
    assert StopAt("abc", stops, 1) by { assert stops[0] == "bc"; }
    assert stops[0][0] != stops[1][0];
    forall j | 0 <= j < |stops| ensures !(stops[j] < stops[1]) {}
    LastCharacterAlone(stops, 1);
  }

  // ---- the filter as the server keeps it ----

  /** str.find */
  method Find(text: string, marker: string) returns (i: int)
    ensures i >= 0 ==> OccursAt(text, marker, i) && forall j :: 0 <= j < i ==> !OccursAt(text, marker, j)
    ensures i < 0 ==> forall j :: 0 <= j <= |text| ==> !OccursAt(text, marker, j)
  {
    i := 0;
    while i + |marker| <= |text|
      invariant 0 <= i && forall j :: 0 <= j < i ==> !OccursAt(text, marker, j)
      decreases |text| - i
    {
      if text[i..i + |marker|] == marker { return; }
      i := i + 1;
    }
    i := -1;
  }

  /** The earliest position where any of the markers starts; |text| + 1 if none does. */
  method EarliestStop(text: string, stops: seq<string>) returns (cut: nat)
    ensures cut == FirstStop(text, stops, 0)
  {
    cut := |text| + 1;
    for k := 0 to |stops|
      invariant cut <= |text| + 1 && (cut <= |text| ==> StopAt(text, stops, cut))
      invariant forall i, j :: 0 <= i < cut && 0 <= j < k && stops[j] != "" ==> !OccursAt(text, stops[j], i)
    {
      if stops[k] != "" {
        var i := Find(text, stops[k]);
        if 0 <= i < cut { cut := i; }
      }
    }
    forall i | 0 <= i < cut ensures !StopAt(text, stops, i) {}
  }

  /** _truncate_at_stop */
  method TruncateAtStop(text: string, stops: seq<string>) returns (r: string)
    ensures r == Truncated(text, stops)
  {
    var cut := EarliestStop(text, stops);
    r := if cut <= |text| then text[..cut] else text;
  }

  class StreamingStopFilter {
    const stops: seq<string>
    var buffer: string
    var matched: bool

    ghost function Abs(): Filter
      reads this
    {
      Filter(buffer, matched)
    }

    constructor (all: seq<string>)
      ensures stops == all && Abs() == Filter("", false)
    {
      stops, buffer, matched := all, "", false;
    }

    /** Longest tail of the buffer that begins marker k. */
    method HeldBy(k: nat) returns (p: nat)
      requires k < |stops|
      ensures p == 0 || (p < |stops[k]| && p <= |buffer| && stops[k][..p] == buffer[|buffer| - p..])
      ensures forall q :: p < q < |stops[k]| && q <= |buffer| ==> stops[k][..q] != buffer[|buffer| - q..]
    {
      if |stops[k]| == 0 { return 0; }
      p := if |stops[k]| - 1 < |buffer| then |stops[k]| - 1 else |buffer|;
      while p > 0 && stops[k][..p] != buffer[|buffer| - p..]
        invariant p < |stops[k]| && p <= |buffer|
        invariant forall q :: p < q < |stops[k]| && q <= |buffer| ==> stops[k][..q] != buffer[|buffer| - q..]
      {
        p := p - 1;
      }
    }

    method Feed(text: string) returns (emitted: string)
      modifies this
      ensures (Abs(), emitted) == AfterChunk(stops, old(Abs()), text)
    {
      if matched || text == "" { return ""; }
      buffer := buffer + text;
      var cut := EarliestStop(buffer, stops);
      if cut <= |buffer| {
        emitted := buffer[..cut];
        buffer, matched := "", true;
        return;
      }
      var keep := Keep();
      emitted := buffer[..|buffer| - keep];
      buffer := buffer[|buffer| - keep..];
    }

    /** How much is withheld: the longest over all stops. */
    method Keep() returns (keep: nat)
      ensures keep == KeepLength(buffer, stops, |buffer|)
    {
      keep := 0;
      for k := 0 to |stops|
        invariant keep <= |buffer|
        invariant keep > 0 ==> Held(buffer, stops, keep)
        invariant forall q, j :: keep < q <= |buffer| && 0 <= j < k && q < |stops[j]| ==>
          stops[j][..q] != buffer[|buffer| - q..]
      {
        var p := HeldBy(k);
        if keep < p { keep := p; }
      }
      forall q | keep < q <= |buffer| ensures !Held(buffer, stops, q) {}
    }

    method Flush() returns (emitted: string)
      modifies this
      ensures emitted == Remainder(old(Abs()))
      ensures Abs() == if old(matched) then old(Abs()) else Filter("", false)
    {
      if matched { return ""; }
      emitted := buffer;
      buffer := "";
    }
  }
}
