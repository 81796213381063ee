/**
 * The filtering and ordering of the search components
 * (`website/src/components/ui/search-bar.tsx`): the text query, the
 * difficulty filter, the sort orders, and the labels shown on an issue card.
 *
 * `localeCompare` is modelled by a ranking `rank` of titles (a total
 * preorder), and the deadline comparison by a ranking `deadlineRank` of the
 * parsed deadlines. `Array.prototype.sort` is stable, so each sort is
 * `Sorting.SortBy` on the corresponding key.
 */
module SearchBar {
  import opened Text
  import opened Sequences
  import Sorting

  datatype SearchItem = SearchItem(id: int, creator: string, title: string, description: string, tags: seq<string>)

  datatype Challenge = Challenge(
    id: int, title: string, description: string, difficulty: string, category: string,
    participants: int, deadline: string, prize: string, tags: seq<string>)

  datatype CardItem = CardItem(id: int, title: string, description: string, labels: seq<string>)

  datatype Label = Label(id: int, name: string, color: string)

  datatype SortOrder = Unsorted | Asc | Desc | Deadline | Participants

  /** The query as matched: `query.toLowerCase().trim()`. */
  function Needle(query: string): string {
    Trim(JavaScript, Lower(query))
  }

  /** `text.toLowerCase().includes(needle)`. */
  predicate MatchesText(text: string, needle: string) {
    Contains(Lower(text), needle)
  }

  /** Some entry of a list matches. */
  predicate MatchesAny(texts: seq<string>, needle: string) {
    exists i | 0 <= i < |texts| :: MatchesText(texts[i], needle)
  }

  /** A query of whitespace only matches as the empty string, which every text contains. */
  lemma BlankQueryIsEmpty(query: string)
    requires All(query, c => IsSpace(JavaScript, c))
    ensures Needle(query) == ""
    ensures forall text :: MatchesText(text, Needle(query))
  {
    var low := Lower(query);
    assert All(low, c => IsSpace(JavaScript, c));
    TrimStartAfterSpaces(JavaScript, low, "");
    assert low + "" == low;
    forall text ensures MatchesText(text, "") {
      assert OccursAt(Lower(text), "", 0);
    }
  }

  /** The stable sort for the chosen order; orders a component does not offer leave the list as it is. */
  function Order<T>(xs: seq<T>, order: SortOrder, title: T -> string, rank: string -> int,
                    deadline: T -> int, participants: T -> int): (r: seq<T>)
    ensures multiset(r) == multiset(xs)
    ensures order == Unsorted ==> r == xs
    ensures order == Asc ==> Sorting.SortedBy(r, (x: T) => rank(title(x)))
    ensures order == Desc ==> Sorting.SortedBy(r, (x: T) => -rank(title(x)))
    ensures order == Deadline ==> Sorting.SortedBy(r, deadline)
    ensures order == Participants ==> Sorting.SortedBy(r, (x: T) => -participants(x))
  {
    match order
    case Unsorted => xs
    case Asc => Sorting.SortBy(xs, (x: T) => rank(title(x)))
    case Desc => Sorting.SortBy(xs, (x: T) => -rank(title(x)))
    case Deadline => Sorting.SortBy(xs, deadline)
    case Participants => Sorting.SortBy(xs, (x: T) => -participants(x))
  }

  /** The "Most Popular" order lists challenges by non-increasing participant count. */
  lemma ParticipantsNonIncreasing(xs: seq<Challenge>, rank: string -> int, deadlineRank: string -> int)
    ensures var r := Order(xs, Participants, (c: Challenge) => c.title, rank,
                           (c: Challenge) => deadlineRank(c.deadline), (c: Challenge) => c.participants);
      forall i, j | 0 <= i < j < |r| :: r[i].participants >= r[j].participants
  {
    var r := Order(xs, Participants, (c: Challenge) => c.title, rank,
                   (c: Challenge) => deadlineRank(c.deadline), (c: Challenge) => c.participants);
    assert Sorting.SortedBy(r, (c: Challenge) => -c.participants);
  }

  // ---------------------------------------------------------------------------
  // The four components
  // ---------------------------------------------------------------------------

  predicate IssueMatches(item: CardItem, needle: string) {
    MatchesText(item.title, needle) || MatchesText(item.description, needle) || MatchesAny(item.labels, needle)
  }

  /** `ChallengeCardSearchComponent`: title, description or a label; sorted by title on request. */
  function SearchIssues(items: seq<CardItem>, query: string, order: SortOrder, rank: string -> int): (r: seq<CardItem>)
    requires order in {Unsorted, Asc, Desc}
    ensures forall x :: x in r <==> x in items && IssueMatches(x, Needle(query))
    ensures Selects(r, items, (x: CardItem) => IssueMatches(x, Needle(query)))
    ensures order == Unsorted ==> IsSubsequence(r, items)
    ensures order == Asc ==> Sorting.SortedBy(r, (x: CardItem) => rank(x.title))
    ensures order == Desc ==> Sorting.SortedBy(r, (x: CardItem) => -rank(x.title))
  {
    var p := (x: CardItem) => IssueMatches(x, Needle(query));
    var kept := Filter(items, p);
    FilterSelects(items, p);
    FilterIsSubsequence(items, p);
    var r := Order(kept, order, (x: CardItem) => x.title, rank, (x: CardItem) => 0, (x: CardItem) => 0);
    SelectsPermuted(r, kept, items, p);
    r
  }

  /** `SearchComponent` and `SearchComponentLight`: the title alone is matched. */
  function SearchTitles(data: seq<SearchItem>, query: string, order: SortOrder, rank: string -> int)
    : (r: seq<SearchItem>)
    requires order in {Unsorted, Asc, Desc}
    ensures forall x :: x in r <==> x in data && MatchesText(x.title, Needle(query))
    ensures Selects(r, data, (x: SearchItem) => MatchesText(x.title, Needle(query)))
    ensures order == Unsorted ==> IsSubsequence(r, data)
    ensures order == Asc ==> Sorting.SortedBy(r, (x: SearchItem) => rank(x.title))
    ensures order == Desc ==> Sorting.SortedBy(r, (x: SearchItem) => -rank(x.title))
  {
    var p := (x: SearchItem) => MatchesText(x.title, Needle(query));
    var kept := Filter(data, p);
    FilterSelects(data, p);
    FilterIsSubsequence(data, p);
    var r := Order(kept, order, (x: SearchItem) => x.title, rank, (x: SearchItem) => 0, (x: SearchItem) => 0);
    SelectsPermuted(r, kept, data, p);
    r
  }

  predicate ChallengeMatches(c: Challenge, needle: string) {
    || MatchesText(c.title, needle) || MatchesText(c.description, needle)
    || MatchesText(c.category, needle) || MatchesAny(c.tags, needle)
  }

  /** What the challenge list keeps: the text query, and the difficulty when one is chosen. */
  predicate ChallengeKept(c: Challenge, needle: string, difficulty: string) {
    ChallengeMatches(c, needle) && (difficulty == "" || c.difficulty == difficulty)
  }

  /** `ChallengeSearchComponent`: text query, then the difficulty filter when one is chosen, then the order. */
  function SearchChallenges(challenges: seq<Challenge>, query: string, difficulty: string, order: SortOrder,
                            rank: string -> int, deadlineRank: string -> int): (r: seq<Challenge>)
    ensures forall x :: x in r <==> x in challenges && ChallengeKept(x, Needle(query), difficulty)
    ensures Selects(r, challenges, (c: Challenge) => ChallengeKept(c, Needle(query), difficulty))
    ensures order == Unsorted ==> IsSubsequence(r, challenges)
    ensures order == Asc ==> Sorting.SortedBy(r, (c: Challenge) => rank(c.title))
    ensures order == Desc ==> Sorting.SortedBy(r, (c: Challenge) => -rank(c.title))
    ensures order == Deadline ==> Sorting.SortedBy(r, (c: Challenge) => deadlineRank(c.deadline))
    ensures order == Participants ==> Sorting.SortedBy(r, (c: Challenge) => -c.participants)
  {
    var p := (c: Challenge) => ChallengeKept(c, Needle(query), difficulty);
    var kept := ChallengeFilters(challenges, Needle(query), difficulty);
    ChallengeFiltersAreOne(challenges, Needle(query), difficulty);
    FilterSelects(challenges, p);
    FilterIsSubsequence(challenges, p);
    var r := OrderChallenges(kept, order, rank, deadlineRank);
    SelectsPermuted(r, kept, challenges, p);
    r
  }

  /** The challenge list's four sorts: by title either way, by deadline, by participants descending. */
  function OrderChallenges(kept: seq<Challenge>, order: SortOrder, rank: string -> int, deadlineRank: string -> int)
    : (r: seq<Challenge>)
    ensures multiset(r) == multiset(kept)
    ensures order == Unsorted ==> r == kept
    ensures order == Asc ==> Sorting.SortedBy(r, (c: Challenge) => rank(c.title))
    ensures order == Desc ==> Sorting.SortedBy(r, (c: Challenge) => -rank(c.title))
    ensures order == Deadline ==> Sorting.SortedBy(r, (c: Challenge) => deadlineRank(c.deadline))
    ensures order == Participants ==> Sorting.SortedBy(r, (c: Challenge) => -c.participants)
  {
    Order(kept, order, (c: Challenge) => c.title, rank,
          (c: Challenge) => deadlineRank(c.deadline), (c: Challenge) => c.participants)
  }

  /** The text filter, then the difficulty filter when a difficulty is chosen. */
  function ChallengeFilters(challenges: seq<Challenge>, needle: string, difficulty: string): seq<Challenge> {
    var byText := Filter(challenges, (c: Challenge) => ChallengeMatches(c, needle));
    if difficulty != "" then Filter(byText, (c: Challenge) => c.difficulty == difficulty) else byText
  }

  /** The two filters in a row keep what `ChallengeKept` keeps. */
  lemma ChallengeFiltersAreOne(challenges: seq<Challenge>, needle: string, difficulty: string)
    ensures ChallengeFilters(challenges, needle, difficulty)
         == Filter(challenges, (c: Challenge) => ChallengeKept(c, needle, difficulty))
  {
    var text := (c: Challenge) => ChallengeMatches(c, needle);
    var p := (c: Challenge) => ChallengeKept(c, needle, difficulty);
    if difficulty != "" {
      FilterFilter(challenges, text, (c: Challenge) => c.difficulty == difficulty, p);
    } else {
      FilterSame(challenges, text, p);
    }
  }

  /** An empty or blank query with no difficulty and no order shows every challenge, in order. */
  lemma BlankSearchShowsAll(challenges: seq<Challenge>, query: string, rank: string -> int, deadlineRank: string -> int)
    requires All(query, c => IsSpace(JavaScript, c))
    ensures SearchChallenges(challenges, query, "", Unsorted, rank, deadlineRank) == challenges
  {
    BlankQueryIsEmpty(query);
    FilterAll(challenges, (c: Challenge) => ChallengeMatches(c, Needle(query)));
  }

  /** The labels of an issue card: the catalogue's labels named by the item, in catalogue order. */
  function CardLabels(labels: seq<Label>, item: CardItem): (r: seq<Label>)
    ensures forall l :: l in r <==> l in labels && l.name in item.labels
    ensures Selects(r, labels, (l: Label) => l.name in item.labels)
    ensures IsSubsequence(r, labels)
  {
    var p := (l: Label) => l.name in item.labels;
    FilterSelects(labels, p);
    FilterIsSubsequence(labels, p);
    SelectsPermuted(Filter(labels, p), Filter(labels, p), labels, p);
    Filter(labels, p)
  }
}
