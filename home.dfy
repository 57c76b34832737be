/**
 * The home feed (`HomeView`): the ideas loaded once on mount, the case-insensitive search
 * over title and description, and the vote button's update of one idea's counter.
 */
module Home {
  import opened Options
  import opened Text
  import opened Cards

  /** The error code the vote endpoint returns without a session. */
  const NotAuthenticated := "nao_autenticado"

  const VoteAlertPrefix := "Erro ao votar: "

  /** The search test of one idea: lower-cased title or description contains the lower-cased filter. */
  predicate Matches(idea: Card, filter: string) {
    Contains(Lower(idea.title), Lower(filter)) || Contains(Lower(idea.description), Lower(filter))
  }

  /** `filteredIdeas`. */
  function FeedFilter(ideas: seq<Card>, filter: string): (r: seq<Card>)
    ensures forall x :: x in r <==> x in ideas && Matches(x, filter)
  {
    Filter(ideas, (x: Card) => Matches(x, filter))
  }

  /** The feed shows the matching ideas in their loaded order. */
  lemma FeedKeepsOrder(ideas: seq<Card>, filter: string)
    ensures IsSubsequence(FeedFilter(ideas, filter), ideas)
  {
    FilterIsSubsequence(ideas, (x: Card) => Matches(x, filter));
  }

  /** With an empty search box the feed shows every idea. */
  lemma EmptyFilterKeepsAll(ideas: seq<Card>)
    ensures FeedFilter(ideas, "") == ideas
  {
    forall x | x in ideas ensures Matches(x, "") {
      assert Lower("") == [];
      assert Lower("") <= Lower(x.title);
    }
    FilterAll(ideas, (x: Card) => Matches(x, ""));
  }

  /** Typing the search in upper or lower case shows the same feed. */
  lemma FilterIgnoresCase(ideas: seq<Card>, filter: string)
    ensures FeedFilter(ideas, Lower(filter)) == FeedFilter(ideas, filter)
  {
    LowerIdempotent(filter);
    FilterCongruent(ideas, (x: Card) => Matches(x, Lower(filter)), (x: Card) => Matches(x, filter));
  }

  /** `WithVotes` on a non-empty list rewrites the head and the tail separately. */
  lemma WithVotesCons(s: seq<Card>, id: int, votes: int)
    requires s != []
    ensures WithVotes(s, id, votes) == [WithVotes([s[0]], id, votes)[0]] + WithVotes(s[1..], id, votes)
  {
    var w := WithVotes(s, id, votes);
    var t := WithVotes(s[1..], id, votes);
    assert forall k :: 1 <= k < |s| ==> w[k] == t[k - 1];
  }

  /** A vote changes no title or description, so it commutes with the search. */
  lemma {:induction false} VoteCommutesWithFilter(ideas: seq<Card>, id: int, votes: int, filter: string)
    ensures FeedFilter(WithVotes(ideas, id, votes), filter) == WithVotes(FeedFilter(ideas, filter), id, votes)
  {
    if ideas != [] {
      var t := ideas[1..];
      var h := WithVotes([ideas[0]], id, votes)[0];
      WithVotesCons(ideas, id, votes);
      assert Matches(h, filter) == Matches(ideas[0], filter);
      var w := WithVotes(ideas, id, votes);
      assert w[0] == h && w[1..] == WithVotes(t, id, votes);
      VoteCommutesWithFilter(t, id, votes, filter);
      if Matches(ideas[0], filter) {
        var f := FeedFilter(ideas, filter);
        assert f == [ideas[0]] + FeedFilter(t, filter);
        WithVotesCons(f, id, votes);
        assert f[1..] == FeedFilter(t, filter);
      }
    }
  }

  /** The answer of the vote endpoint: `{ok: true, votes}` or `{ok: false, error}`. */
  datatype VoteResponse = VoteOk(votes: int) | VoteFailed(error: string)

  /** What `handleVote` does besides the state update. */
  datatype VoteReaction = CounterUpdated | AuthRequested | Alerted(message: string)

  /** `handleVote`'s reaction to an answer, apart from the state update. */
  function Reaction(r: VoteResponse): (x: VoteReaction)
    ensures x.CounterUpdated? <==> r.VoteOk?
    ensures x.AuthRequested? <==> r.VoteFailed? && r.error == NotAuthenticated
    ensures x.Alerted? <==> r.VoteFailed? && r.error != NotAuthenticated
    ensures x.Alerted? ==> x.message == VoteAlertPrefix + r.error
  {
    match r
    case VoteOk(_) => CounterUpdated
    case VoteFailed(error) =>
      if error == NotAuthenticated then AuthRequested else Alerted(VoteAlertPrefix + error)
  }

  /** The feed's state: `ideas`, `loading` and `filter`. */
  class Feed {
    var ideas: seq<Card>
    var loading: bool
    var filter: string

    /** `useState([])`, `useState(true)` and `useState('')`. */
    constructor ()
      ensures ideas == [] && loading && filter == ""
    {
      ideas := [];
      loading := true;
      filter := "";
    }

    /** The mount effect: keeps the list only from a successful answer, stops loading either way. */
    method Mount(r: IdeasResponse)
      modifies this`ideas, this`loading
      ensures !loading
      ensures r.IdeasOk? ==> ideas == r.ideas
      ensures r.IdeasFailed? ==> ideas == old(ideas)
    {
      if r.IdeasOk? {
        ideas := r.ideas;
      }
      loading := false;
    }

    /** The search box's `onChange`. */
    method SetFilter(typed: string)
      modifies this`filter
      ensures filter == typed
    {
      filter := typed;
    }

    /** The ideas drawn in the grid, or none while loading. */
    function Shown(): (r: seq<Card>)
      reads this
      ensures loading ==> r == []
      ensures !loading ==> forall x :: x in r <==> x in ideas && Matches(x, filter)
    {
      if loading then [] else FeedFilter(ideas, filter)
    }

    /** `handleVote(idea)` given the endpoint's answer `r`. */
    method HandleVote(idea: Card, r: VoteResponse) returns (reaction: VoteReaction)
      modifies this`ideas
      ensures reaction == Reaction(r)
      ensures r.VoteOk? ==> ideas == WithVotes(old(ideas), idea.id, r.votes)
      ensures r.VoteFailed? ==> ideas == old(ideas)
    {
      reaction := Reaction(r);
      if r.VoteOk? {
        ideas := WithVotes(ideas, idea.id, r.votes);
      }
    }
  }
}
