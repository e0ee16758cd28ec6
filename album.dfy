/**
 * The album page (server/users/album/album.js): the optional album, the
 * enabled embed providers for the media-link form, and the page title.
 *
 * The owner (`internal:users.fetch_user_by_hid`), the embed domains
 * (`internal:users.album.init_embedza`) and the translation of
 * `default_name` are inputs; the media list sub-call and the breadcrumbs are
 * not part of this model. A translated title is kept as its phrase and
 * parameters.
 */
module Album {
  import opened Wrappers

  type Id = string

  datatype User = User(name: string, nick: string)

  /** An album record; a missing title is the empty string, falsy like it. */
  datatype AlbumRecord = AlbumRecord(id: Id, title: string)

  /** An embedza domain. */
  datatype Domain = Domain(id: string, enabled: bool)

  /** An entry of `medialink_providers`. */
  datatype Provider = Provider(home: string, name: string)

  /** `title_album_with_user` or `title_with_user`, with their parameters. */
  datatype HeadTitle = TitleAlbumWithUser(album: string, username: string) | TitleWithUser(username: string)

  datatype Status = NotFound

  /** `fetch_album`: nothing without an id, NOT_FOUND for an unknown one, else the album with its title defaulted. */
  function FetchAlbum(albumId: Option<Id>, albums: map<Id, AlbumRecord>, defaultName: string)
    : (r: Result<Option<AlbumRecord>, Status>)
    ensures albumId.None? ==> r == Ok(None)
    ensures albumId.Some? ==> (r.Err? <==> albumId.value !in albums)
    ensures r.Ok? && r.value.Some? ==>
      && albumId.Some? && albumId.value in albums
      && r.value.value.id == albums[albumId.value].id
      && r.value.value.title == (if albums[albumId.value].title != "" then albums[albumId.value].title else defaultName)
  {
    if albumId.None? then Ok(None)
    else if albumId.value !in albums then Err(NotFound)
    else
      var album := albums[albumId.value];
      Ok(Some(album.(title := if album.title != "" then album.title else defaultName)))
  }

  /** The provider entry of a domain. */
  function ProviderOf(d: Domain): Provider {
    Provider("http://" + d.id, d.id)
  }

  /** The providers of the enabled domains, in order. */
  function EnabledProviders(domains: seq<Domain>): (r: seq<Provider>)
    ensures |r| <= |domains|
    ensures forall p :: p in r <==> exists d :: d in domains && d.enabled && p == ProviderOf(d)
  {
    if domains == [] then []
    else
      var rest := EnabledProviders(domains[1..]);
      assert forall d :: d in domains <==> d == domains[0] || d in domains[1..];
      if domains[0].enabled then [ProviderOf(domains[0])] + rest else rest
  }

  /** The order of the domains is kept: the providers of two lists are those of each in turn. */
  lemma {:induction false} EnabledProvidersKeepOrder(a: seq<Domain>, b: seq<Domain>)
    ensures EnabledProviders(a + b) == EnabledProviders(a) + EnabledProviders(b)
  {
    if a == [] {
      assert a + b == b;
    } else {
      assert (a + b)[0] == a[0] && (a + b)[1..] == a[1..] + b;
      EnabledProvidersKeepOrder(a[1..], b);
    }
  }

  /**
   * `fill_head`: a member sees the owner's name and a guest the nick; the
   * album phrase is used exactly when an album was fetched.
   */
  function HeadTitleOf(isMember: bool, owner: User, album: Option<AlbumRecord>): (r: HeadTitle)
    ensures r.TitleAlbumWithUser? <==> album.Some?
    ensures r.TitleAlbumWithUser? ==> r.album == album.value.title
    ensures r.username == (if isMember then owner.name else owner.nick)
  {
    var username := if isMember then owner.name else owner.nick;
    if album.Some? then TitleAlbumWithUser(album.value.title, username) else TitleWithUser(username)
  }

  /** A fetched album never has an empty title when the default name is not empty. */
  lemma FetchedTitleNotEmpty(albumId: Option<Id>, albums: map<Id, AlbumRecord>, defaultName: string)
    requires defaultName != ""
    ensures var r := FetchAlbum(albumId, albums, defaultName);
      r.Ok? && r.value.Some? ==> r.value.value.title != ""
  {
  }

  /** The request's `env.data` and `env.res`. */
  class AlbumEnv {
    var album: Option<AlbumRecord>
    var medialinkProviders: seq<Provider>
    var resAlbum: Option<AlbumRecord>
    var headTitle: Option<HeadTitle>

    constructor ()
      ensures album.None? && medialinkProviders == [] && resAlbum.None? && headTitle.None?
    {
      album := None;
      medialinkProviders := [];
      resAlbum := None;
      headTitle := None;
    }

    /** `fill_providers`: one entry per enabled domain, in order. */
    method FillProviders(domains: seq<Domain>)
      modifies this
      ensures medialinkProviders == EnabledProviders(domains)
      ensures album == old(album) && resAlbum == old(resAlbum) && headTitle == old(headTitle)
    {
      medialinkProviders := [];
      for i := 0 to |domains|
        invariant medialinkProviders == EnabledProviders(domains[..i])
        invariant album == old(album) && resAlbum == old(resAlbum) && headTitle == old(headTitle)
      {
        EnabledProvidersKeepOrder(domains[..i], [domains[i]]);
        assert domains[..i + 1] == domains[..i] + [domains[i]];
        assert [domains[i]][1..] == [];
        if !domains[i].enabled {
          continue;
        }
        medialinkProviders := medialinkProviders + [ProviderOf(domains[i])];
      }
      assert domains[..|domains|] == domains;
    }

    /**
     * The whole request. An unknown album id answers NOT_FOUND before the
     * providers are filled; otherwise the album, the providers and the head
     * title are those of the functions above.
     */
    method Run(albumId: Option<Id>, albums: map<Id, AlbumRecord>, defaultName: string, domains: seq<Domain>,
               isMember: bool, owner: User) returns (r: Result<(), Status>)
      requires album.None?
      modifies this
      ensures FetchAlbum(albumId, albums, defaultName).Err? ==>
        && r == Err(NotFound)
        && album == old(album) && resAlbum == old(resAlbum)
        && medialinkProviders == old(medialinkProviders) && headTitle == old(headTitle)
      ensures FetchAlbum(albumId, albums, defaultName).Ok? ==>
        && r.Ok?
        && album == FetchAlbum(albumId, albums, defaultName).value
        && resAlbum == album
        && medialinkProviders == EnabledProviders(domains)
        && headTitle == Some(HeadTitleOf(isMember, owner, album))
    {
      // fetch_album
      if albumId.Some? {
        if albumId.value !in albums {
          return Err(NotFound);
        }
        var found := albums[albumId.value];
        found := found.(title := if found.title != "" then found.title else defaultName);
        album := Some(found);
      }
      FillProviders(domains);
      // get_user_albums
      resAlbum := album;
      // fill_head
      var username := if isMember then owner.name else owner.nick;
      if album.Some? {
        headTitle := Some(TitleAlbumWithUser(album.value.title, username));
      } else {
        headTitle := Some(TitleWithUser(username));
      }
      return Ok(());
    }
  }
}
