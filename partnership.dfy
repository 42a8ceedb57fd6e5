/**
 * The partnership-matching dashboard
 * (app/dashboard/partnership-matching/page.tsx): sample startups are filtered
 * by a conjunction of optional conditions, scored against the selected
 * industry partner and listed best score first; selecting a match opens a
 * chat and a timeline that later sends append to.
 *
 * The score itself is floating-point arithmetic and is a parameter here
 * (`score`), an integer per startup; only the keyword-overlap count it starts
 * from is modelled. Clock readings and date strings are left out.
 */
module PartnershipMatching {
  import opened Wrappers
  import opened Text

  datatype Startup = Startup(id: string, name: string, focus: string, keywords: seq<string>, trl: int, fundingStage: string)

  datatype Partner = Partner(id: string, name: string, industry: string, needs: seq<string>)

  /** A listed startup with its overall score. */
  datatype Match = Match(startup: Startup, overall: int)

  datatype Filters = Filters(trlLow: int, trlHigh: int, fundingStage: string, technologyArea: string, industryFocus: string)

  /** `handleFilterChange(key, value)`: one key, one value. */
  datatype FilterUpdate =
    | SetTrl(low: int, high: int)
    | SetFundingStage(stage: string)
    | SetTechnologyArea(area: string)
    | SetIndustryFocus(industry: string)

  datatype ChatKind = System | Received | Sent

  datatype ChatMessage = ChatMessage(sender: string, text: string, kind: ChatKind)

  datatype Status = Completed | Pending | Scheduled

  datatype TimelineEvent = TimelineEvent(event: string, status: Status)

  const SampleStartups: seq<Startup> := [
    Startup("s1", "NanoInnovate Inc.", "Carbon Nanotubes", ["carbon nanotubes", "composites", "material science", "aerospace"], 5, "Seed"),
    Startup("s2", "GrapheneX Solutions", "Graphene Composites", ["graphene", "polymers", "conductive materials", "automotive"], 4, "Series A"),
    Startup("s3", "LithiumCore Tech", "Solid-State Batteries", ["lithium", "solid-state", "battery technology", "energy storage"], 6, "Series B"),
    Startup("s4", "BioSynth Materials", "Bio-based Polymers", ["biopolymers", "sustainable materials", "packaging", "circular economy"], 3, "Pre-seed")
  ]

  const SamplePartners: seq<Partner> := [
    Partner("i1", "AeroSpace Corp.", "Aerospace", ["lightweight materials", "high strength composites", "carbon nanotubes", "thermal management"]),
    Partner("i2", "AutoDrive Motors", "Automotive", ["battery technology", "durable polymers", "graphene", "lightweighting"]),
    Partner("i3", "BuildGreen Construction", "Construction", ["sustainable concrete", "insulation materials", "smart building materials"])
  ]

  /** The filters the page starts with: TRL 3 to 7, every other filter empty. */
  const InitialFilters := Filters(3, 7, "", "", "")

  /** The value the "Any Stage" and "Any Industry" options store. */
  const AnyOption := "any"

  const ReplyText := "Thank you for your message. We're excited to discuss further."

  // -----------------------------------------------------------------------
  // Filtering

  /** Some keyword of `s` contains the technology area, ignoring case. */
  predicate HasArea(s: Startup, area: string)
  {
    exists k :: 0 <= k < |s.keywords| && Contains(ToLower(s.keywords[k]), ToLower(area))
  }

  /** The startup filter: each condition applies only when its filter is non-empty. */
  predicate Passes(s: Startup, f: Filters, search: string)
  {
    && f.trlLow <= s.trl
    && s.trl <= f.trlHigh
    && (f.fundingStage != "" ==> s.fundingStage == f.fundingStage)
    && (f.technologyArea != "" ==> HasArea(s, f.technologyArea))
    && (search != "" ==> Contains(ToLower(s.name), ToLower(search)))
  }

  function FilterStartups(ss: seq<Startup>, f: Filters, search: string): (r: seq<Startup>)
    ensures |r| <= |ss|
  {
    if ss == [] then []
    else if Passes(ss[0], f, search) then [ss[0]] + FilterStartups(ss[1..], f, search)
    else FilterStartups(ss[1..], f, search)
  }

  /** A selected partner and a non-empty industry focus that is not its industry. */
  predicate IndustryMismatch(partner: Option<Partner>, f: Filters)
  {
    partner.Some? && f.industryFocus != "" && partner.value.industry != f.industryFocus
  }

  /** The startups to score: the filtered ones, or none on an industry mismatch. */
  function Candidates(ss: seq<Startup>, f: Filters, search: string, partner: Option<Partner>): seq<Startup>
  {
    if IndustryMismatch(partner, f) then [] else FilterStartups(ss, f, search)
  }

  function Scored(ss: seq<Startup>, score: Startup -> int): (r: seq<Match>)
    ensures |r| == |ss|
    ensures forall i :: 0 <= i < |ss| ==> r[i] == Match(ss[i], score(ss[i]))
  {
    if ss == [] then [] else [Match(ss[0], score(ss[0]))] + Scored(ss[1..], score)
  }

  // -----------------------------------------------------------------------
  // Sorting by score, best first (a stable sort, as `Array.prototype.sort` is)

  predicate SortedDesc(ms: seq<Match>)
  {
    forall i, j :: 0 <= i < j < |ms| ==> ms[i].overall >= ms[j].overall
  }

  /** `m` placed before the first entry whose score is not above its own. */
  function Insert(m: Match, ms: seq<Match>): (r: seq<Match>)
    ensures |r| == |ms| + 1
  {
    if ms == [] || ms[0].overall <= m.overall then [m] + ms
    else [ms[0]] + Insert(m, ms[1..])
  }

  function SortByScore(ms: seq<Match>): (r: seq<Match>)
    ensures |r| == |ms|
  {
    if ms == [] then [] else Insert(ms[0], SortByScore(ms[1..]))
  }

  /** The list the page shows. */
  function Matches(ss: seq<Startup>, f: Filters, search: string, partner: Option<Partner>, score: Startup -> int): seq<Match>
  {
    SortByScore(Scored(Candidates(ss, f, search, partner), score))
  }

  // -----------------------------------------------------------------------
  // Keyword overlap

  /** How many of the startup's keywords appear, exactly, in the partner's needs. */
  function KeywordOverlap(keywords: seq<string>, needs: seq<string>): nat
  {
    if keywords == [] then 0
    else (if keywords[0] in needs then 1 else 0) + KeywordOverlap(keywords[1..], needs)
  }

  // -----------------------------------------------------------------------
  // Page state

  function ApplyFilter(f: Filters, u: FilterUpdate): Filters
  {
    match u
    case SetTrl(low, high) => f.(trlLow := low, trlHigh := high)
    case SetFundingStage(v) => f.(fundingStage := v)
    case SetTechnologyArea(v) => f.(technologyArea := v)
    case SetIndustryFocus(v) => f.(industryFocus := v)
  }

  /** The partner picked by id in the partner menu, if any has that id. */
  function FindPartner(ps: seq<Partner>, id: string): (r: Option<Partner>)
  {
    if ps == [] then None
    else if ps[0].id == id then Some(ps[0])
    else FindPartner(ps[1..], id)
  }

  function PartnerName(p: Option<Partner>, otherwise: string): string
  {
    if p.Some? && p.value.name != "" then p.value.name else otherwise
  }

  /** The two messages a newly opened chat holds. */
  function OpeningChat(s: Startup, p: Option<Partner>): seq<ChatMessage>
  {
    [ ChatMessage("AI Assistant", "Secure channel with " + s.name + " established.", System),
      ChatMessage(PartnerName(p, "Industry Partner"),
                  "Hello " + s.name + ", we are " + PartnerName(p, "an interested party")
                  + " and impressed by your work in " + s.focus + ".",
                  Received) ]
  }

  const OpeningTimeline: seq<TimelineEvent> := [
    TimelineEvent("Initial Match Identified by AI", Completed),
    TimelineEvent("Automated Introduction Email Sent", Pending),
    TimelineEvent("Follow-up Reminder", Scheduled)
  ]

  class PartnershipPage {
    var filters: Filters
    var searchTerm: string
    var selectedStartup: Option<Startup>
    var selectedPartner: Option<Partner>
    var chatMessages: seq<ChatMessage>
    var chatInput: string
    var timeline: seq<TimelineEvent>
    var listed: seq<Match>
    /** Names of the startups whose reply timer is running, oldest first. */
    var pendingReplies: seq<string>

    constructor()
      ensures filters == InitialFilters && searchTerm == ""
      ensures selectedStartup == None && selectedPartner == Some(SamplePartners[0])
      ensures chatMessages == [] && chatInput == "" && timeline == [] && listed == [] && pendingReplies == []
    {
      filters := InitialFilters;
      searchTerm := "";
      selectedStartup := None;
      selectedPartner := Some(SamplePartners[0]);
      chatMessages := [];
      chatInput := "";
      timeline := [];
      listed := [];
      pendingReplies := [];
    }

    /** `handleFilterChange`: the named filter takes the new value; nothing else changes. */
    method HandleFilterChange(u: FilterUpdate)
      modifies this
      ensures filters == ApplyFilter(old(filters), u)
      ensures searchTerm == old(searchTerm) && selectedStartup == old(selectedStartup)
      ensures selectedPartner == old(selectedPartner) && listed == old(listed)
      ensures chatMessages == old(chatMessages) && timeline == old(timeline) && chatInput == old(chatInput)
      ensures pendingReplies == old(pendingReplies)
    {
      filters := ApplyFilter(filters, u);
    }

    method SetSearchTerm(term: string)
      modifies this
      ensures searchTerm == term && filters == old(filters) && selectedPartner == old(selectedPartner)
      ensures listed == old(listed) && selectedStartup == old(selectedStartup)
      ensures chatMessages == old(chatMessages) && chatInput == old(chatInput) && timeline == old(timeline)
      ensures pendingReplies == old(pendingReplies)
    {
      searchTerm := term;
    }

    method SelectPartner(id: string)
      modifies this
      ensures selectedPartner == FindPartner(SamplePartners, id)
      ensures filters == old(filters) && searchTerm == old(searchTerm) && listed == old(listed)
      ensures selectedStartup == old(selectedStartup) && chatMessages == old(chatMessages)
      ensures chatInput == old(chatInput) && timeline == old(timeline) && pendingReplies == old(pendingReplies)
    {
      selectedPartner := FindPartner(SamplePartners, id);
    }

    method SetChatInput(value: string)
      modifies this
      ensures chatInput == value && chatMessages == old(chatMessages) && timeline == old(timeline)
      ensures selectedStartup == old(selectedStartup) && selectedPartner == old(selectedPartner)
      ensures pendingReplies == old(pendingReplies)
      ensures filters == old(filters) && searchTerm == old(searchTerm) && listed == old(listed)
    {
      chatInput := value;
    }

    /** The filtering effect's timer fires: the list is recomputed from the current filters. */
    method RefreshMatches(score: Startup -> int)
      modifies this
      ensures listed == Matches(SampleStartups, filters, searchTerm, selectedPartner, score)
      ensures filters == old(filters) && searchTerm == old(searchTerm) && selectedPartner == old(selectedPartner)
      ensures selectedStartup == old(selectedStartup) && chatMessages == old(chatMessages) && timeline == old(timeline)
      ensures chatInput == old(chatInput) && pendingReplies == old(pendingReplies)
    {
      listed := Matches(SampleStartups, filters, searchTerm, selectedPartner, score);
    }

    /** `handleSelectStartup`: the chat restarts with two messages and the timeline with three events. */
    method HandleSelectStartup(s: Startup)
      modifies this
      ensures selectedStartup == Some(s)
      ensures chatMessages == OpeningChat(s, selectedPartner)
      ensures timeline == OpeningTimeline
      ensures |chatMessages| == 2 && chatMessages[0].kind == System && chatMessages[1].kind == Received
      ensures |timeline| == 3
      ensures filters == old(filters) && selectedPartner == old(selectedPartner) && chatInput == old(chatInput)
      ensures listed == old(listed) && pendingReplies == old(pendingReplies) && searchTerm == old(searchTerm)
    {
      selectedStartup := Some(s);
      chatMessages := OpeningChat(s, selectedPartner);
      timeline := OpeningTimeline;
    }

    /**
     * `handleSendMessage`: nothing happens on blank input or without a
     * selected startup and partner; otherwise one sent message and one
     * completed timeline event are appended, the reply timer starts and the
     * input is cleared.
     */
    method HandleSendMessage()
      modifies this
      ensures IsBlank(old(chatInput)) || old(selectedStartup).None? || old(selectedPartner).None? ==>
                chatMessages == old(chatMessages) && timeline == old(timeline)
                && chatInput == old(chatInput) && pendingReplies == old(pendingReplies)
      ensures !(IsBlank(old(chatInput)) || old(selectedStartup).None? || old(selectedPartner).None?) ==>
                && chatMessages == old(chatMessages)
                     + [ChatMessage("You (" + old(selectedPartner).value.name + ")", old(chatInput), Sent)]
                && timeline == old(timeline)
                     + [TimelineEvent("Message sent to " + old(selectedStartup).value.name, Completed)]
                && pendingReplies == old(pendingReplies) + [old(selectedStartup).value.name]
                && chatInput == ""
      ensures selectedStartup == old(selectedStartup) && selectedPartner == old(selectedPartner)
      ensures filters == old(filters) && listed == old(listed) && searchTerm == old(searchTerm)
    {
      if Trim(chatInput) == "" || selectedStartup.None? || selectedPartner.None? {
        return;
      }
      var startupName := selectedStartup.value.name;
      chatMessages := chatMessages + [ChatMessage("You (" + selectedPartner.value.name + ")", chatInput, Sent)];
      pendingReplies := pendingReplies + [startupName];
      chatInput := "";
      timeline := timeline + [TimelineEvent("Message sent to " + startupName, Completed)];
    }

    /** The oldest reply timer fires: that startup's canned reply is appended. */
    method ReplyTimerElapsed()
      requires pendingReplies != []
      modifies this
      ensures chatMessages == old(chatMessages) + [ChatMessage(old(pendingReplies)[0], ReplyText, Received)]
      ensures pendingReplies == old(pendingReplies)[1..]
      ensures timeline == old(timeline) && chatInput == old(chatInput)
      ensures selectedStartup == old(selectedStartup) && selectedPartner == old(selectedPartner)
      ensures filters == old(filters) && searchTerm == old(searchTerm) && listed == old(listed)
    {
      chatMessages := chatMessages + [ChatMessage(pendingReplies[0], ReplyText, Received)];
      pendingReplies := pendingReplies[1..];
    }
  }

  // -----------------------------------------------------------------------
  // Lemmas: filtering

  /** A startup is kept exactly when it is in the input and passes every filter. */
  lemma {:induction false} FilterIff(ss: seq<Startup>, f: Filters, search: string, s: Startup)
    ensures s in FilterStartups(ss, f, search) <==> s in ss && Passes(s, f, search)
  {
    if ss != [] {
      FilterIff(ss[1..], f, search, s);
      assert ss == [ss[0]] + ss[1..];
    }
  }

  /** Filtering keeps the input's order: the result is a subsequence of it. */
  lemma {:induction false} FilterIsSubsequence(ss: seq<Startup>, f: Filters, search: string)
    ensures IsSubsequence(FilterStartups(ss, f, search), ss)
  {
    if ss != [] {
      FilterIsSubsequence(ss[1..], f, search);
      var rest := FilterStartups(ss[1..], f, search);
      if Passes(ss[0], f, search) {
        assert ([ss[0]] + rest)[1..] == rest;
      }
    }
  }

  /** `a` can be obtained from `b` by deleting entries. */
  predicate IsSubsequence(a: seq<Startup>, b: seq<Startup>)
    decreases |b|
  {
    if b == [] then a == []
    else (a != [] && a[0] == b[0] && IsSubsequence(a[1..], b[1..])) || IsSubsequence(a, b[1..])
  }

  lemma {:induction false} ScoredMembers(ss: seq<Startup>, score: Startup -> int, m: Match)
    ensures m in Scored(ss, score) <==> m.startup in ss && m.overall == score(m.startup)
  {
    var r := Scored(ss, score);
    if m in r {
      var i :| 0 <= i < |r| && r[i] == m;
      assert ss[i] == m.startup;
    }
    if m.startup in ss && m.overall == score(m.startup) {
      var i :| 0 <= i < |ss| && ss[i] == m.startup;
      assert r[i] == m;
    }
  }

  /** Every listed startup passed the filters, so in particular its TRL lies in the chosen range. */
  lemma ListedPassFilters(ss: seq<Startup>, f: Filters, search: string, partner: Option<Partner>, score: Startup -> int, m: Match)
    requires m in Matches(ss, f, search, partner, score)
    ensures m.startup in ss && Passes(m.startup, f, search)
    ensures f.trlLow <= m.startup.trl <= f.trlHigh
    ensures m.overall == score(m.startup)
    ensures !IndustryMismatch(partner, f)
  {
    var cands := Candidates(ss, f, search, partner);
    SortPermutes(Scored(cands, score));
    assert m in multiset(Scored(cands, score));
    ScoredMembers(cands, score, m);
    if !IndustryMismatch(partner, f) {
      FilterIff(ss, f, search, m.startup);
    }
  }

  /** Conversely, every startup that passes is listed (when there is no industry mismatch). */
  lemma EveryPassingStartupListed(ss: seq<Startup>, f: Filters, search: string, partner: Option<Partner>, score: Startup -> int, s: Startup)
    requires s in ss && Passes(s, f, search) && !IndustryMismatch(partner, f)
    ensures Match(s, score(s)) in Matches(ss, f, search, partner, score)
  {
    var cands := Candidates(ss, f, search, partner);
    FilterIff(ss, f, search, s);
    ScoredMembers(cands, score, Match(s, score(s)));
    SortPermutes(Scored(cands, score));
    assert Match(s, score(s)) in multiset(Scored(cands, score));
  }

  /** A selected partner whose industry differs from a non-empty focus empties the list. */
  lemma IndustryMismatchEmpties(ss: seq<Startup>, f: Filters, search: string, p: Partner, score: Startup -> int)
    requires f.industryFocus != "" && p.industry != f.industryFocus
    ensures Matches(ss, f, search, Some(p), score) == []
  {
  }

  /** Choosing "Any Stage" stores "any", which is no sample startup's stage: nothing is listed. */
  lemma AnyStageListsNothing(f: Filters, search: string, partner: Option<Partner>, score: Startup -> int)
    requires f.fundingStage == AnyOption
    ensures Matches(SampleStartups, f, search, partner, score) == []
  {
    forall s | s in SampleStartups
      ensures !Passes(s, f, search)
    {
      assert |s.fundingStage| != |AnyOption|;
    }
    if !IndustryMismatch(partner, f) {
      NothingPasses(SampleStartups, f, search);
    }
  }

  /** Choosing "Any Industry" stores "any", which is no sample partner's industry: nothing is listed. */
  lemma AnyIndustryListsNothing(f: Filters, search: string, partner: Partner, score: Startup -> int)
    requires partner in SamplePartners && f.industryFocus == AnyOption
    ensures Matches(SampleStartups, f, search, Some(partner), score) == []
  {
    assert |partner.industry| != |AnyOption|;
  }

  lemma NothingPasses(ss: seq<Startup>, f: Filters, search: string)
    requires forall s | s in ss :: !Passes(s, f, search)
    ensures FilterStartups(ss, f, search) == []
  {
    if FilterStartups(ss, f, search) != [] {
      var s := FilterStartups(ss, f, search)[0];
      FilterIff(ss, f, search, s);
    }
  }

  /** With the initial filters and no search, exactly the sample startups of TRL 3 to 7 pass: all four. */
  lemma InitialFiltersKeepAll()
    ensures FilterStartups(SampleStartups, InitialFilters, "") == SampleStartups
  {
    var ss := SampleStartups;
    assert ss[1..][1..][1..][1..] == [];
  }

  // -----------------------------------------------------------------------
  // Lemmas: sorting

  lemma {:induction false} InsertPermutes(m: Match, ms: seq<Match>)
    ensures multiset(Insert(m, ms)) == multiset([m]) + multiset(ms)
  {
    if ms != [] && ms[0].overall > m.overall {
      InsertPermutes(m, ms[1..]);
      assert ms == [ms[0]] + ms[1..];
    }
  }

  /** The sorted list holds exactly the scored matches, each as often. */
  lemma {:induction false} SortPermutes(ms: seq<Match>)
    ensures multiset(SortByScore(ms)) == multiset(ms)
  {
    if ms != [] {
      SortPermutes(ms[1..]);
      InsertPermutes(ms[0], SortByScore(ms[1..]));
      assert ms == [ms[0]] + ms[1..];
    }
  }

  lemma {:induction false} InsertSorted(m: Match, ms: seq<Match>)
    requires SortedDesc(ms)
    ensures SortedDesc(Insert(m, ms))
    ensures Insert(m, ms) != [] && (Insert(m, ms)[0] == m || (ms != [] && Insert(m, ms)[0] == ms[0]))
  {
    if ms != [] && ms[0].overall > m.overall {
      InsertSorted(m, ms[1..]);
      var t := Insert(m, ms[1..]);
      var r := [ms[0]] + t;
      forall i, j | 0 <= i < j < |r|
        ensures r[i].overall >= r[j].overall
      {
        if i == 0 {
          if t[0] == m {
            assert ms[0].overall >= t[j - 1].overall || j == 1;
          }
          assert r[i].overall >= t[0].overall;
          assert t[0].overall >= t[j - 1].overall || j == 1;
        }
      }
    }
  }

  /** The list is best score first. */
  lemma {:induction false} SortSorted(ms: seq<Match>)
    ensures SortedDesc(SortByScore(ms))
  {
    if ms != [] {
      SortSorted(ms[1..]);
      InsertSorted(ms[0], SortByScore(ms[1..]));
    }
  }

  /** The shown list is best score first and holds each candidate exactly once. */
  lemma MatchesSortedPermutation(ss: seq<Startup>, f: Filters, search: string, partner: Option<Partner>, score: Startup -> int)
    ensures SortedDesc(Matches(ss, f, search, partner, score))
    ensures multiset(Matches(ss, f, search, partner, score)) == multiset(Scored(Candidates(ss, f, search, partner), score))
  {
    SortSorted(Scored(Candidates(ss, f, search, partner), score));
    SortPermutes(Scored(Candidates(ss, f, search, partner), score));
  }

  // -----------------------------------------------------------------------
  // Lemmas: keyword overlap

  /** The overlap is at most the number of startup keywords, zero iff none is needed, full iff all are. */
  lemma {:induction false} OverlapBounds(keywords: seq<string>, needs: seq<string>)
    ensures KeywordOverlap(keywords, needs) <= |keywords|
    ensures KeywordOverlap(keywords, needs) == 0 <==> forall k :: 0 <= k < |keywords| ==> keywords[k] !in needs
    ensures KeywordOverlap(keywords, needs) == |keywords| <==> forall k :: 0 <= k < |keywords| ==> keywords[k] in needs
  {
    if keywords != [] {
      OverlapBounds(keywords[1..], needs);
      forall k | 1 <= k < |keywords|
        ensures keywords[k] == keywords[1..][k - 1]
      {
      }
    }
  }

  /** NanoInnovate and AeroSpace Corp. share one keyword, "carbon nanotubes". */
  lemma NanoInnovateAeroSpaceOverlap()
    ensures KeywordOverlap(SampleStartups[0].keywords, SamplePartners[0].needs) == 1
  {
    var ks := SampleStartups[0].keywords;
    var needs := SamplePartners[0].needs;
    forall k | 1 <= k < |ks| ensures ks[k] !in needs {
      forall j | 0 <= j < |needs| ensures ks[k] != needs[j] {
        assert |ks[k]| != |needs[j]| || ks[k][0] != needs[j][0];
      }
    }
    assert ks[0] == needs[2];
    assert ks[1..][1..][1..][1..] == [];
  }

  // -----------------------------------------------------------------------
  // Lemmas: page state

  /** `FindPartner` returns the first partner with the id, or nothing when none has it. */
  lemma {:induction false} FindPartnerIff(ps: seq<Partner>, id: string)
    ensures FindPartner(ps, id).Some? <==> exists i :: 0 <= i < |ps| && ps[i].id == id
    ensures FindPartner(ps, id).Some? ==> FindPartner(ps, id).value in ps && FindPartner(ps, id).value.id == id
  {
    if ps != [] {
      FindPartnerIff(ps[1..], id);
      if ps[0].id != id && exists i :: 0 <= i < |ps| && ps[i].id == id {
        var i :| 0 <= i < |ps| && ps[i].id == id;
        assert ps[1..][i - 1].id == id;
      }
    }
  }

  /** Each filter update changes its own key and no other. */
  lemma ApplyFilterChangesOnlyItsKey(f: Filters, u: FilterUpdate)
    ensures !u.SetTrl? ==> ApplyFilter(f, u).trlLow == f.trlLow && ApplyFilter(f, u).trlHigh == f.trlHigh
    ensures !u.SetFundingStage? ==> ApplyFilter(f, u).fundingStage == f.fundingStage
    ensures !u.SetTechnologyArea? ==> ApplyFilter(f, u).technologyArea == f.technologyArea
    ensures !u.SetIndustryFocus? ==> ApplyFilter(f, u).industryFocus == f.industryFocus
    ensures u.SetFundingStage? ==> ApplyFilter(f, u).fundingStage == u.stage
    ensures u.SetTechnologyArea? ==> ApplyFilter(f, u).technologyArea == u.area
    ensures u.SetIndustryFocus? ==> ApplyFilter(f, u).industryFocus == u.industry
    ensures u.SetTrl? ==> ApplyFilter(f, u).trlLow == u.low && ApplyFilter(f, u).trlHigh == u.high
  {
  }
}
