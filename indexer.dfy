/**
 * The list loaders of Indexer.cpp. Each one clears its global list and then
 * fills it from the music database. The database is not modelled: a
 * `Catalog` value stands for what its three queries return.
 */
module Indexer {
  import opened State

  /**
   * What the database's queries return. The lists are in the database's own
   * order: artists by name ignoring case, an artist's albums by year and then
   * name, an album's songs by track number. A missing key is an empty result.
   */
  datatype Catalog = Catalog(
    artistNames: seq<string>,
    albumsOf: map<string, seq<string>>,
    songsOf: map<(string, string), seq<Song>>)

  function AlbumNamesByArtist(c: Catalog, artist: string): seq<string> {
    if artist in c.albumsOf then c.albumsOf[artist] else []
  }

  function SongsByAlbum(c: Catalog, artist: string, album: string): seq<Song> {
    if (artist, album) in c.songsOf then c.songsOf[(artist, album)] else []
  }

  /** When each loader reports success. */
  predicate ArtistListLoads(c: Catalog) {
    c.artistNames != []
  }

  predicate AlbumListLoads(c: Catalog, artist: string) {
    artist != "" && AlbumNamesByArtist(c, artist) != []
  }

  predicate SongListLoads(c: Catalog, artist: string, album: string) {
    artist != "" && album != "" && SongsByAlbum(c, artist, album) != []
  }

  function AfterBuildArtistList(s: DeviceState, c: Catalog): DeviceState {
    s.(library := s.library.(artists := c.artistNames))
  }

  function AfterBuildAlbumList(s: DeviceState, c: Catalog, artist: string): DeviceState {
    s.(library := s.library.(albums := if artist == "" then [] else AlbumNamesByArtist(c, artist)))
  }

  function AfterBuildSongList(s: DeviceState, c: Catalog, artist: string, album: string): DeviceState {
    s.(library := s.library.(songs :=
      if artist == "" || album == "" then [] else SongsByAlbum(c, artist, album)))
  }

  // ---------------------------------------------------------------------------
  // What a loader's answer tells its caller
  // ---------------------------------------------------------------------------

  /** The artist list is replaced by the catalog's, and success means it is non-empty. */
  lemma ArtistListResult(s: DeviceState, c: Catalog)
    ensures var r := AfterBuildArtistList(s, c);
      r.library.artists == c.artistNames &&
      (ArtistListLoads(c) <==> r.library.artists != []) &&
      r.library.(artists := s.library.artists) == s.library && r.(library := s.library) == s
  {
  }

  /**
   * An empty artist name fails with the album list cleared; otherwise the list
   * is the catalog's, and success means exactly that it is non-empty.
   */
  lemma AlbumListResult(s: DeviceState, c: Catalog, artist: string)
    ensures var r := AfterBuildAlbumList(s, c, artist);
      (artist == "" ==> r.library.albums == [] && !AlbumListLoads(c, artist)) &&
      (AlbumListLoads(c, artist) <==> r.library.albums != []) &&
      (AlbumListLoads(c, artist) ==> r.library.albums == AlbumNamesByArtist(c, artist)) &&
      r.library.(albums := s.library.albums) == s.library && r.(library := s.library) == s
  {
  }

  /**
   * An empty artist or album name fails with the song list cleared; after a
   * success the song list is the catalog's and is not empty.
   */
  lemma SongListResult(s: DeviceState, c: Catalog, artist: string, album: string)
    ensures var r := AfterBuildSongList(s, c, artist, album);
      ((artist == "" || album == "") ==> r.library.songs == [] && !SongListLoads(c, artist, album)) &&
      (SongListLoads(c, artist, album) <==> r.library.songs != []) &&
      (SongListLoads(c, artist, album) ==> r.library.songs == SongsByAlbum(c, artist, album)) &&
      r.library.(songs := s.library.songs) == s.library && r.(library := s.library) == s
  {
  }

  // ---------------------------------------------------------------------------
  // The loaders on the device
  // ---------------------------------------------------------------------------

  method BuildArtistList(d: Device, c: Catalog) returns (ok: bool)
    modifies d
    ensures d.State() == AfterBuildArtistList(old(d.State()), c)
    ensures ok == ArtistListLoads(c)
  {
    d.library := d.library.(artists := []);
    d.library := d.library.(artists := c.artistNames);
    if d.library.artists == [] {
      return false;
    }
    return true;
  }

  method BuildAlbumList(d: Device, c: Catalog, artist: string) returns (ok: bool)
    modifies d
    ensures d.State() == AfterBuildAlbumList(old(d.State()), c, artist)
    ensures ok == AlbumListLoads(c, artist)
  {
    d.library := d.library.(albums := []);
    if artist == "" {
      return false;
    }
    d.library := d.library.(albums := AlbumNamesByArtist(c, artist));
    if d.library.albums == [] {
      return false;
    }
    return true;
  }

  method BuildSongList(d: Device, c: Catalog, artist: string, album: string) returns (ok: bool)
    modifies d
    ensures d.State() == AfterBuildSongList(old(d.State()), c, artist, album)
    ensures ok == SongListLoads(c, artist, album)
  {
    d.library := d.library.(songs := []);
    if artist == "" || album == "" {
      return false;
    }
    d.library := d.library.(songs := SongsByAlbum(c, artist, album));
    if d.library.songs == [] {
      return false;
    }
    return true;
  }
}
