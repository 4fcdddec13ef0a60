/** The Events page: the time-window filter, the text search and its
    suggestions, the YouTube-id extractor and the description preview. */
module Events {
  import opened Wrappers
  import opened Text
  import opened Sequences

  /** An event as the backend returns it. `date` is the timestamp that
      `new Date(event.date)` yields, None when that date is invalid (NaN). */
  datatype Event = Event(
    title: string,
    description: string,
    location: Option<string>,
    date: Option<int>,
    youtubeUrls: seq<string>)

  // ---------------------------------------------------------------------
  // Time window, search and suggestions

  /** `event => new Date(event.date) > now`; a NaN date compares false. */
  function UpcomingAt(now: int): Event -> bool
  {
    (e: Event) => e.date.Some? && e.date.value > now
  }

  /** `event => new Date(event.date) <= now`; a NaN date compares false. */
  function PastAt(now: int): Event -> bool
  {
    (e: Event) => e.date.Some? && e.date.value <= now
  }

  /** The first stage of the effect: "upcoming" and "past" filter by date,
      any other value of `activeFilter` (normally "all") keeps every event. */
  function TimeFilter(events: seq<Event>, activeFilter: string, now: int): seq<Event>
  {
    if activeFilter == "upcoming" then Filter(events, UpcomingAt(now))
    else if activeFilter == "past" then Filter(events, PastAt(now))
    else events
  }

  /** Title, description or a truthy location contains the term, ignoring case. */
  function EventMatcher(term: string): Event -> bool
  {
    (e: Event) =>
      MatchesTerm(e.title, term) || MatchesTerm(e.description, term)
      || (Truthy(e.location) && MatchesTerm(e.location.value, term))
  }

  /** filteredEvents: the time window, then the search when the term is not
      blank. The term itself is matched untrimmed. */
  function SearchEvents(events: seq<Event>, activeFilter: string, searchTerm: string, now: int): seq<Event>
  {
    var windowed := TimeFilter(events, activeFilter, now);
    if IsBlank(searchTerm) then windowed else Filter(windowed, EventMatcher(searchTerm))
  }

  /** `events.map(event => event.title)` */
  function EventTitles(events: seq<Event>): seq<string>
  {
    Map(events, (e: Event) => e.title)
  }

  /** suggestions: none for a blank term, else the first five titles of ALL
      events (not only those in the time window) that contain the term. */
  function EventSuggestions(events: seq<Event>, searchTerm: string): seq<string>
  {
    if IsBlank(searchTerm) then [] else Take(Filter(EventTitles(events), TextMatcher(searchTerm)), 5)
  }

  /** With every date valid, "upcoming" and "past" split the events: each
      event is in exactly one of the two lists. */
  lemma TimeWindowsPartition(events: seq<Event>, now: int)
    requires forall i :: 0 <= i < |events| ==> events[i].date.Some?
    ensures multiset(TimeFilter(events, "upcoming", now)) + multiset(TimeFilter(events, "past", now))
      == multiset(events)
    ensures |TimeFilter(events, "upcoming", now)| + |TimeFilter(events, "past", now)| == |events|
  {
    FilterPartition(events, UpcomingAt(now), PastAt(now));
  }

  /** An event whose date is invalid is in neither window, yet "all" (or any
      value other than "upcoming" and "past") keeps it. */
  lemma InvalidDateInNoWindow(events: seq<Event>, now: int, e: Event, other: string)
    requires e in events && e.date.None?
    requires other != "upcoming" && other != "past"
    ensures e !in TimeFilter(events, "upcoming", now) && e !in TimeFilter(events, "past", now)
    ensures TimeFilter(events, other, now) == events
  {
  }

  /** Sublist order is transitive. */
  lemma {:induction false} SubsequenceTransitive<T>(a: seq<T>, b: seq<T>, c: seq<T>)
    requires IsSubsequence(a, b) && IsSubsequence(b, c)
    ensures IsSubsequence(a, c)
    decreases |c|
  {
    if a != [] {
      if b[0] == c[0] && IsSubsequence(b[1..], c[1..]) {
        if a[0] == b[0] && IsSubsequence(a[1..], b[1..]) {
          SubsequenceTransitive(a[1..], b[1..], c[1..]);
        } else {
          SubsequenceTransitive(a, b[1..], c[1..]);
        }
      } else {
        SubsequenceTransitive(a, b, c[1..]);
      }
    }
  }

  /** filteredEvents keeps the events' order; a blank term shows the whole
      window, and any other term keeps exactly the events of the window that
      match it. */
  lemma SearchEventsSpec(events: seq<Event>, activeFilter: string, searchTerm: string, now: int)
    ensures var r := SearchEvents(events, activeFilter, searchTerm, now);
      IsSubsequence(r, events)
    ensures IsBlank(searchTerm) ==>
      SearchEvents(events, activeFilter, searchTerm, now) == TimeFilter(events, activeFilter, now)
    ensures var r := SearchEvents(events, activeFilter, searchTerm, now);
      var w := TimeFilter(events, activeFilter, now);
      !IsBlank(searchTerm) ==>
        (forall i :: 0 <= i < |r| ==> r[i] in w && EventMatcher(searchTerm)(r[i]))
        && (forall i :: 0 <= i < |w| && EventMatcher(searchTerm)(w[i]) ==> w[i] in r)
    ensures var r := SearchEvents(events, activeFilter, searchTerm, now);
      var w := TimeFilter(events, activeFilter, now);
      !IsBlank(searchTerm) ==> forall x ::
        multiset(r)[x] == if EventMatcher(searchTerm)(x) then multiset(w)[x] else 0
  {
    var w := TimeFilter(events, activeFilter, now);
    if activeFilter == "upcoming" {
      FilterIsSubsequence(events, UpcomingAt(now));
    } else if activeFilter == "past" {
      FilterIsSubsequence(events, PastAt(now));
    } else {
      FilterAll(events, (_: Event) => true);
      FilterIsSubsequence(events, (_: Event) => true);
    }
    if !IsBlank(searchTerm) {
      FilterIsSubsequence(w, EventMatcher(searchTerm));
      FilterCount(w, EventMatcher(searchTerm));
      SubsequenceTransitive(Filter(w, EventMatcher(searchTerm)), w, events);
    }
  }

  /** At most five suggestions, each the title of some event and containing
      the term; when five or fewer titles match, all of them are suggested. */
  lemma SuggestionsSpec(events: seq<Event>, searchTerm: string)
    ensures var r := EventSuggestions(events, searchTerm);
      |r| <= 5
      && (forall i :: 0 <= i < |r| ==>
            MatchesTerm(r[i], searchTerm) && exists j :: 0 <= j < |events| && events[j].title == r[i])
    ensures IsBlank(searchTerm) ==> EventSuggestions(events, searchTerm) == []
    ensures var matching := Filter(EventTitles(events), TextMatcher(searchTerm));
      !IsBlank(searchTerm) && |matching| <= 5 ==> EventSuggestions(events, searchTerm) == matching
  {
    var r := EventSuggestions(events, searchTerm);
    var titles := EventTitles(events);
    var matching := Filter(titles, TextMatcher(searchTerm));
    if !IsBlank(searchTerm) {
      forall i | 0 <= i < |r|
        ensures MatchesTerm(r[i], searchTerm) && exists j :: 0 <= j < |events| && events[j].title == r[i]
      {
        assert r[i] == matching[i];
        assert TextMatcher(searchTerm)(matching[i]) && matching[i] in titles;
        var j :| 0 <= j < |titles| && titles[j] == matching[i];
        assert events[j].title == r[i];
      }
    }
  }

  // ---------------------------------------------------------------------
  // getYouTubeId: `/^.*(youtu.be\/|v\/|u\/\w\/|embed\/|watch\?v=|&v=)([^#&?]*).*/`

  /** What `.` refuses: the ECMAScript line terminators. */
  predicate IsLineTerminator(c: char)
  {
    c == '\n' || c == '\r' || c as int == 0x2028 || c as int == 0x2029
  }

  /** `\w` */
  predicate IsWordChar(c: char)
  {
    'a' <= c <= 'z' || 'A' <= c <= 'Z' || '0' <= c <= '9' || c == '_'
  }

  /** What `[^#&?]` refuses. */
  predicate IsIdStop(c: char)
  {
    c == '#' || c == '&' || c == '?'
  }

  /** `s` holds the text `w` at index `p`. */
  predicate HasAt(s: string, p: nat, w: string)
  {
    p + |w| <= |s| && s[p..p + |w|] == w
  }

  /** The length of the first alternative of group 1 that matches at `p`,
      or 0 when none does. */
  function MarkerAt(s: string, p: nat): (n: nat)
    ensures n > 0 ==> p + n <= |s|
    ensures n > 0 ==> s[p] in "yvuew&"
  {
    if p + 9 <= |s| && HasAt(s, p, "youtu") && !IsLineTerminator(s[p + 5]) && HasAt(s, p + 6, "be/") then
      assert s[p] == s[p..p + 5][0]; 9
    else if HasAt(s, p, "v/") then
      assert s[p] == s[p..p + 2][0]; 2
    else if p + 4 <= |s| && s[p] == 'u' && s[p + 1] == '/' && IsWordChar(s[p + 2]) && s[p + 3] == '/' then 4
    else if HasAt(s, p, "embed/") then
      assert s[p] == s[p..p + 6][0]; 6
    else if HasAt(s, p, "watch?v=") then
      assert s[p] == s[p..p + 8][0]; 8
    else if HasAt(s, p, "&v=") then
      assert s[p] == s[p..p + 3][0]; 3
    else 0
  }

  /** Where `^.*` has to stop: the first line terminator, or the end. */
  function LineEnd(s: string): (n: nat)
    ensures n <= |s|
    ensures forall i :: 0 <= i < n ==> !IsLineTerminator(s[i])
    ensures n < |s| ==> IsLineTerminator(s[n])
  {
    if s == [] || IsLineTerminator(s[0]) then 0 else 1 + LineEnd(s[1..])
  }

  /** The backtracking of the greedy `^.*`: it gives back one character at a
      time from `p`, so group 1 is found at the LAST position that holds one
      of the alternatives. */
  function LastMarker(s: string, p: nat): (r: Option<nat>)
    requires p <= |s|
    ensures r.Some? ==> r.value <= p && MarkerAt(s, r.value) > 0
    ensures r.Some? ==> forall q :: r.value < q <= p ==> MarkerAt(s, q) == 0
    ensures r.None? ==> forall q :: 0 <= q <= p ==> MarkerAt(s, q) == 0
    decreases p
  {
    if MarkerAt(s, p) > 0 then Some(p)
    else if p == 0 then None
    else LastMarker(s, p - 1)
  }

  /** The greedy `[^#&?]*` from `i`: where the run ends. */
  function IdEnd(s: string, i: nat): (j: nat)
    requires i <= |s|
    ensures i <= j <= |s|
    ensures forall k :: i <= k < j ==> !IsIdStop(s[k])
    ensures j == |s| || IsIdStop(s[j])
    decreases |s| - i
  {
    if i == |s| || IsIdStop(s[i]) then i else IdEnd(s, i + 1)
  }

  /** `url.match(regExp)`: group 2 of the match, or None when there is none. */
  function CapturedId(url: string): (r: Option<string>)
    ensures r.Some? ==> forall k :: 0 <= k < |r.value| ==> !IsIdStop(r.value[k])
  {
    var m := LastMarker(url, LineEnd(url));
    if m.None? then None
    else
      var start := m.value + MarkerAt(url, m.value);
      Some(url[start..IdEnd(url, start)])
  }

  /** getYouTubeId: the captured id when it has exactly 11 characters. */
  function GetYouTubeId(url: string): (r: Option<string>)
    ensures r.Some? ==> r == CapturedId(url)
    ensures r.Some? ==> |r.value| == 11 && forall k :: 0 <= k < 11 ==> !IsIdStop(r.value[k])
    ensures r.Some? <==> CapturedId(url).Some? && |CapturedId(url).value| == 11
  {
    var id := CapturedId(url);
    if id.Some? && |id.value| == 11 then id else None
  }

  /** Every alternative of group 1 holds a '/' or a character of `#&?`. */
  lemma MarkerSeparator(s: string, p: nat) returns (k: nat)
    requires MarkerAt(s, p) > 0
    ensures p <= k < p + MarkerAt(s, p) && (s[k] == '/' || IsIdStop(s[k]))
  {
    if p + 9 <= |s| && HasAt(s, p, "youtu") && !IsLineTerminator(s[p + 5]) && HasAt(s, p + 6, "be/") {
      assert s[p + 6..p + 9][2] == '/';
      k := p + 8;
    } else if HasAt(s, p, "v/") {
      assert s[p..p + 2][1] == '/';
      k := p + 1;
    } else if p + 4 <= |s| && s[p] == 'u' && s[p + 1] == '/' && IsWordChar(s[p + 2]) && s[p + 3] == '/' {
      k := p + 1;
    } else if HasAt(s, p, "embed/") {
      assert s[p..p + 6][5] == '/';
      k := p + 5;
    } else if HasAt(s, p, "watch?v=") {
      assert s[p..p + 8][5] == '?';
      k := p + 5;
    } else {
      assert s[p..p + 3][0] == '&';
      k := p;
    }
  }

  /** The address the page embeds a video from: `https://www.youtube.com/embed/${videoId}`. */
  function EmbedUrl(id: string): string
  {
    "https://www.youtube.com/embed/" + id
  }

  /** No line terminator in the embed address's fixed part, so `^.*` reaches past it. */
  lemma EmbedLineEnd(id: string)
    ensures LineEnd(EmbedUrl(id)) >= 30
  {
    var url := EmbedUrl(id);
    assert forall k :: 0 <= k < 30 ==> !IsLineTerminator(url[k]);
  }

  /** "embed/" starts at index 24 of the embed address. */
  lemma EmbedMarker(id: string)
    ensures MarkerAt(EmbedUrl(id), 24) == 6
  {
    var url := EmbedUrl(id);
    assert url[24..26] != "v/" by { assert url[25] == 'm'; }
    assert url[24..29] != "youtu" by { assert url[24] == 'e'; }
    assert url[24..30] == "embed/";
  }

  /** Between "embed/" and the id no alternative starts. */
  lemma EmbedPrefixTail(id: string, q: nat)
    requires 24 < q < 30
    ensures MarkerAt(EmbedUrl(id), q) == 0
  {
    var url := EmbedUrl(id);
    assert url[q] == "mbed/"[q - 25] && url[28] == 'd';
  }

  /** Inside such an id no alternative starts either: each needs a '/' or one of `#&?`. */
  lemma EmbedIdTail(id: string, q: nat)
    requires forall k :: 0 <= k < |id| ==> id[k] != '/' && !IsIdStop(id[k])
    requires 30 <= q
    ensures MarkerAt(EmbedUrl(id), q) == 0
  {
    var url := EmbedUrl(id);
    if MarkerAt(url, q) > 0 {
      var k := MarkerSeparator(url, q);
    }
  }

  /** An id without '/', '#', '&' or '?' (every real YouTube id) is captured
      back from the embed address the page builds from it, and returned
      exactly when it has 11 characters. */
  lemma EmbedRoundTrip(id: string)
    requires forall k :: 0 <= k < |id| ==> id[k] != '/' && !IsIdStop(id[k])
    ensures CapturedId(EmbedUrl(id)) == Some(id)
    ensures GetYouTubeId(EmbedUrl(id)) == if |id| == 11 then Some(id) else None
  {
    var url := EmbedUrl(id);
    var end := LineEnd(url);
    EmbedLineEnd(id);
    EmbedMarker(id);
    forall q | 24 < q <= end
      ensures MarkerAt(url, q) == 0
    {
      if q < 30 {
        EmbedPrefixTail(id, q);
      } else {
        EmbedIdTail(id, q);
      }
    }
    assert LastMarker(url, end) == Some(24);
    assert forall k :: 30 <= k < |url| ==> url[k] == id[k - 30];
    assert IdEnd(url, 30) == |url|;
    assert url[30..|url|] == id;
  }

  // ---------------------------------------------------------------------
  // Description preview

  /** The card's text: the first 150 characters and "..." when the
      description is longer than 150, the description itself otherwise. */
  function Preview(description: string): string
  {
    if |description| > 150 then description[..150] + "..." else description
  }

  /** The preview has at most 153 characters and starts with the first 150
      (or all) characters of the description. */
  lemma PreviewShape(description: string)
    ensures |Preview(description)| <= 153
    ensures |description| <= 150 ==> Preview(description) == description
    ensures |description| > 150 ==>
      |Preview(description)| == 153
      && Preview(description)[..150] == description[..150]
      && Preview(description)[150..] == "..."
  {
  }

  /** The preview is the description itself exactly when it is at most 150
      characters long, or already 153 characters ending in "...". */
  lemma PreviewFixedPoints(description: string)
    ensures Preview(description) == description <==>
      |description| <= 150 || (|description| == 153 && description[150..] == "...")
  {
    if |description| == 153 && description[150..] == "..." {
      assert description == description[..150] + description[150..];
    }
  }

  /** Shortening a preview again changes nothing. */
  lemma PreviewIdempotent(description: string)
    ensures Preview(Preview(description)) == Preview(description)
  {
    if |description| > 150 {
      PreviewFixedPoints(Preview(description));
    }
  }

  // ---------------------------------------------------------------------
  // The page's state

  class EventsPage {
    var events: seq<Event>
    var filteredEvents: seq<Event>
    var loading: bool
    var activeFilter: string
    var searchTerm: string
    var suggestions: seq<string>

    constructor ()
      ensures events == [] && filteredEvents == [] && loading
      ensures activeFilter == "all" && searchTerm == "" && suggestions == []
    {
      events, filteredEvents, loading := [], [], true;
      activeFilter, searchTerm, suggestions := "all", "", [];
    }

    /** fetchEvents: on success both lists take the response; loading ends either way. */
    method FetchEvents(response: Outcome<seq<Event>>)
      modifies this`events, this`filteredEvents, this`loading
      ensures response.Success? ==> events == response.response && filteredEvents == response.response
      ensures response.Failure? ==> events == old(events) && filteredEvents == old(filteredEvents)
      ensures !loading
    {
      if response.Success? {
        events := response.response;
        filteredEvents := response.response;
      }
      loading := false;
    }

    /** filterEvents(type): selects the time window. */
    method SelectFilter(kind: string)
      modifies this`activeFilter
      ensures activeFilter == kind
    {
      activeFilter := kind;
    }

    /** The effect on `[activeFilter, searchTerm, events]`, with the clock's
        reading `now`: `result` is narrowed step by step. */
    method RunFilterEffect(now: int)
      modifies this`filteredEvents, this`suggestions
      ensures filteredEvents == SearchEvents(events, activeFilter, searchTerm, now)
      ensures suggestions == EventSuggestions(events, searchTerm)
    {
      var term := searchTerm;
      var blank := IsBlank(term);
      var result := events;
      if activeFilter == "upcoming" {
        result := Filter(result, UpcomingAt(now));
      } else if activeFilter == "past" {
        result := Filter(result, PastAt(now));
      }
      assert result == TimeFilter(events, activeFilter, now);
      if !blank {
        result := Filter(result, EventMatcher(term));
      }
      filteredEvents := result;
      if !blank {
        var titles := EventTitles(events);
        suggestions := Take(Filter(titles, TextMatcher(term)), 5);
      } else {
        suggestions := [];
      }
    }
  }
}
