/**
 * The episode records: the request payload `PodcastEpisode` (title, description, host)
 * and the table row `PodcastEpisodeDB`, which adds the database id.
 */
module EpisodeModels {

  datatype PodcastEpisode = PodcastEpisode(title: string, description: string, host: string)

  datatype PodcastEpisodeDB = PodcastEpisodeDB(id: int, title: string, description: string, host: string)
  {
    /** The row without its id: the fields it inherits from `PodcastEpisode`. */
    function Payload(): PodcastEpisode {
      PodcastEpisode(title, description, host)
    }
  }

  /**
   * The row built from a payload (`model_validate`) once the database has given it `id`
   * and `refresh` has read that id back.
   */
  function ToRow(episode: PodcastEpisode, id: int): PodcastEpisodeDB {
    PodcastEpisodeDB(id, episode.title, episode.description, episode.host)
  }
}
