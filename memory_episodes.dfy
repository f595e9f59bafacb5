/**
 * The in-memory variant of the episode service: a process-wide list of episodes,
 * read by `get_episodes` and appended to by `add_episode`, which refuses a title
 * that is already stored.
 */
module MemoryEpisodes {
  import opened Wrappers
  import opened EpisodeModels

  /** The conflict `add_episode` raises for a title already in the list. */
  datatype AddError = EpisodeExists(title: string)

  predicate HasTitle(episodes: seq<PodcastEpisode>, title: string) {
    exists i :: 0 <= i < |episodes| && episodes[i].title == title
  }

  /** No two stored episodes share a title. */
  predicate TitlesDistinct(episodes: seq<PodcastEpisode>) {
    forall i, j :: 0 <= i < j < |episodes| ==> episodes[i].title != episodes[j].title
  }

  /** The `any(existing.title == title for existing in episodes)` scan; it stops at the first match. */
  method AnyTitle(episodes: seq<PodcastEpisode>, title: string) returns (found: bool)
    ensures found <==> HasTitle(episodes, title)
  {
    found := false;
    var i := 0;
    while i < |episodes| && !found
      invariant 0 <= i <= |episodes|
      invariant found <==> exists j :: 0 <= j < i && episodes[j].title == title
    {
      found := episodes[i].title == title;
      i := i + 1;
    }
  }

  /** The module-level list `episodes`. */
  class EpisodeList {
    var episodes: seq<PodcastEpisode>

    ghost predicate Valid()
      reads this
    {
      TitlesDistinct(episodes)
    }

    constructor ()
      ensures Valid() && episodes == []
    {
      episodes := [];
    }

    /** `get_episodes`: the stored list as it is; nothing changes. */
    method GetEpisodes() returns (r: seq<PodcastEpisode>)
      ensures r == episodes
    {
      r := episodes;
    }

    /** `add_episode`: conflict on a stored title, otherwise append and echo the episode. */
    method AddEpisode(episode: PodcastEpisode) returns (r: Result<PodcastEpisode, AddError>)
      requires Valid()
      modifies this
      ensures Valid()
      ensures HasTitle(old(episodes), episode.title) ==>
                r == Failure(EpisodeExists(episode.title)) && episodes == old(episodes)
      ensures !HasTitle(old(episodes), episode.title) ==>
                r == Success(episode) && episodes == old(episodes) + [episode]
    {
      var taken := AnyTitle(episodes, episode.title);
      if taken {
        return Failure(EpisodeExists(episode.title));
      }
      episodes := episodes + [episode];
      r := Success(episode);
    }
  }
}
