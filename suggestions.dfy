/** The '@' suggestion menus and the servlet containers of the editor:
    packages/lexical-playground/src/plugins/MentionsPlugin/index.tsx,
    packages/tiles-playground/plugins/MCPServerletListPlugin/index.tsx and
    packages/tiles-playground/plugins/MentionsPlugin/index.tsx. Each menu
    matches the lower-cased query against some of a servlet's text fields,
    keeps the first five matches' slugs, and gives way to a loading or an
    error entry. Lower-casing and trimming are ASCII. */
module Suggestions {
  import opened Common
  import opened ServletCache

  /** The popup never lists more than this many servlets. */
  const SuggestionLimit := 5

  /** The text fields a menu may search. */
  datatype Field = Slug | Name | Description | MetaDescription

  function MetaDescriptionOf(s: Servlet): Option<string>
  {
    if s.meta.Some? then s.meta.value.description else None
  }

  /** One operand of the `||` chain: the slug is always searched, the
      optional fields only when they are non-empty. */
  predicate FieldMatches(s: Servlet, f: Field, query: string)
  {
    match f
    case Slug => Contains(Lower(s.slug), query)
    case Name => Present(s.name) && Contains(Lower(s.name.value), query)
    case Description => Present(s.description) && Contains(Lower(s.description.value), query)
    case MetaDescription => Present(MetaDescriptionOf(s)) && Contains(Lower(MetaDescriptionOf(s).value), query)
  }

  predicate Matches(s: Servlet, fields: set<Field>, query: string)
  {
    exists f :: f in fields && FieldMatches(s, f, query)
  }

  /** The servlets a (lower-cased) query matches, in list order. */
  function Matching(servlets: seq<Servlet>, fields: set<Field>, query: string): seq<Servlet>
  {
    Filter(servlets, (s: Servlet) => Matches(s, fields, query))
  }

  /** `.map(servlet => new MentionTypeaheadOption(servlet.slug))`. */
  function Slugs(servlets: seq<Servlet>): (r: seq<string>)
    ensures |r| == |servlets|
    ensures forall i :: 0 <= i < |r| ==> r[i] == servlets[i].slug
  {
    seq(|servlets|, i requires 0 <= i < |servlets| => servlets[i].slug)
  }

  /** `name` is the slug of a servlet of the list that the query matches. */
  ghost predicate SlugOfMatch(name: string, servlets: seq<Servlet>, fields: set<Field>, query: string)
  {
    exists j :: 0 <= j < |servlets| && servlets[j].slug == name && Matches(servlets[j], fields, query)
  }

  /** What distinguishes the three menus. */
  datatype MenuConfig = MenuConfig(fields: set<Field>, loadingText: string)

  /** The lexical plugin searches the top-level description. */
  const LexicalMenu := MenuConfig({Slug, Name, Description}, "Loading servlets...")

  /** The server list searches both descriptions. */
  const ServerMenu := MenuConfig({Slug, Name, Description, MetaDescription}, "Loading servers...")

  /** The tiles mentions plugin searches only `meta.description`. */
  const ServletMenu := MenuConfig({Slug, Name, MetaDescription}, "Loading servlets...")

  /** The `options` memo. `servlets` is `None` when the list is not an
      array; `queryString` is `None` before the menu opens. */
  function MenuOptions(cfg: MenuConfig, servlets: Option<seq<Servlet>>, queryString: Option<string>,
                       isLoading: bool, error: Option<string>): seq<string>
  {
    if queryString.None? || isLoading || Present(error) then []
    else if servlets.None? then []
    else Take(Slugs(Matching(servlets.value, cfg.fields, Lower(queryString.value))), SuggestionLimit)
  }

  /** `displayOptions`: the loading entry, else the error entry, else the options. */
  function DisplayOptions(cfg: MenuConfig, servlets: Option<seq<Servlet>>, queryString: Option<string>,
                          isLoading: bool, error: Option<string>): seq<string>
  {
    if isLoading then [cfg.loadingText]
    else if Present(error) then ["Error: " + error.value]
    else MenuOptions(cfg, servlets, queryString, isLoading, error)
  }

  /** The options are at most five slugs, each of a servlet the query
      matches, as many as there are matches up to five, and they are the
      slugs of the first matches in list order (`FilterInOrder` places
      each match at its position in the list); there are none
      before the menu opens, while loading, on an error, or for a list
      that is not an array. */
  lemma OptionsProperties(cfg: MenuConfig, servlets: Option<seq<Servlet>>, queryString: Option<string>,
                          isLoading: bool, error: Option<string>)
    ensures var r := MenuOptions(cfg, servlets, queryString, isLoading, error);
      |r| <= SuggestionLimit
      && (queryString.None? || isLoading || Present(error) || servlets.None? ==> r == [])
      && (queryString.Some? && servlets.Some? ==>
            forall i :: 0 <= i < |r| ==> SlugOfMatch(r[i], servlets.value, cfg.fields, Lower(queryString.value)))
      && (queryString.Some? && !isLoading && !Present(error) && servlets.Some? ==>
            |r| == Min(SuggestionLimit, |Matching(servlets.value, cfg.fields, Lower(queryString.value))|))
      && (queryString.Some? && !isLoading && !Present(error) && servlets.Some? ==>
            forall i :: 0 <= i < |r| ==> r[i] == Matching(servlets.value, cfg.fields, Lower(queryString.value))[i].slug)
  {
    if queryString.Some? && servlets.Some? && !isLoading && !Present(error) {
      var q := Lower(queryString.value);
      var m := Matching(servlets.value, cfg.fields, q);
      FilterMembers(servlets.value, (s: Servlet) => Matches(s, cfg.fields, q));
      var r := MenuOptions(cfg, servlets, queryString, isLoading, error);
      forall i | 0 <= i < |r|
        ensures SlugOfMatch(r[i], servlets.value, cfg.fields, q)
      {
        assert r[i] == m[i].slug;
        assert m[i] in m;
        assert Matches(m[i], cfg.fields, q);
        var j :| 0 <= j < |servlets.value| && servlets.value[j] == m[i];
        assert servlets.value[j].slug == r[i] && Matches(servlets.value[j], cfg.fields, q);
      }
    }
  }

  /** Each menu matches every servlet on its slug when the query is
      empty, so right after '@' it shows the first five slugs. */
  lemma EmptyQueryShowsFirstFive(cfg: MenuConfig, servlets: seq<Servlet>)
    requires Slug in cfg.fields
    ensures MenuOptions(cfg, Some(servlets), Some(""), false, None) == Slugs(Take(servlets, SuggestionLimit))
  {
    assert Lower("") == "";
    forall i | 0 <= i < |servlets| ensures Matches(servlets[i], cfg.fields, "") {
      ContainsEmpty(Lower(servlets[i].slug));
      assert FieldMatches(servlets[i], Slug, "");
    }
    FilterAll(servlets, (s: Servlet) => Matches(s, cfg.fields, ""));
  }

  /** Matches later in the list never push out earlier ones: once the
      first servlets match five times, what follows them is not shown. */
  lemma EarlierMatchesWin(cfg: MenuConfig, xs: seq<Servlet>, ys: seq<Servlet>, query: string)
    requires |Matching(xs, cfg.fields, Lower(query))| >= SuggestionLimit
    ensures MenuOptions(cfg, Some(xs + ys), Some(query), false, None)
         == MenuOptions(cfg, Some(xs), Some(query), false, None)
  {
    var q := Lower(query);
    FilterAppend(xs, ys, (s: Servlet) => Matches(s, cfg.fields, q));
    var a := Matching(xs, cfg.fields, q);
    var b := Matching(ys, cfg.fields, q);
    assert Slugs(a + b)[..SuggestionLimit] == Slugs(a)[..SuggestionLimit];
  }

  /** While loading only the loading entry is shown, even with an error;
      an error alone shows only `Error: <error>`. */
  lemma LoadingWins(cfg: MenuConfig, servlets: Option<seq<Servlet>>, queryString: Option<string>,
                    isLoading: bool, error: Option<string>)
    ensures isLoading ==> DisplayOptions(cfg, servlets, queryString, isLoading, error) == [cfg.loadingText]
    ensures !isLoading && Present(error) ==>
      DisplayOptions(cfg, servlets, queryString, isLoading, error) == ["Error: " + error.value]
    ensures !isLoading && !Present(error) ==>
      DisplayOptions(cfg, servlets, queryString, isLoading, error) == MenuOptions(cfg, servlets, queryString, false, error)
  {
  }

  /** A servlet that the query finds only through its top-level
      description is offered by the lexical menu and by the server list's
      menu (given a list) but not by the tiles mentions menu, which never
      searches that field. */
  lemma TopLevelDescriptionOnlyInSome(s: Servlet, query: string)
    requires FieldMatches(s, Description, Lower(query))
    requires !FieldMatches(s, Slug, Lower(query)) && !FieldMatches(s, Name, Lower(query))
    requires !FieldMatches(s, MetaDescription, Lower(query))
    ensures MenuOptions(LexicalMenu, Some([s]), Some(query), false, None) == [s.slug]
    ensures MenuOptions(ServerMenu, Some([s]), Some(query), false, None) == [s.slug]
    ensures MenuOptions(ServletMenu, Some([s]), Some(query), false, None) == []
  {
    var q := Lower(query);
    assert Matches(s, LexicalMenu.fields, q) by { assert Description in LexicalMenu.fields; }
    assert Matches(s, ServerMenu.fields, q) by { assert Description in ServerMenu.fields; }
    assert !Matches(s, ServletMenu.fields, q);
    FilterAll([s], (t: Servlet) => Matches(t, LexicalMenu.fields, q));
    FilterAll([s], (t: Servlet) => Matches(t, ServerMenu.fields, q));
    FilterNone([s], (t: Servlet) => Matches(t, ServletMenu.fields, q));
    assert Slugs([s]) == [s.slug];
  }

  // ------------------------------------------------------------ containers

  const DefaultMaxLength := 100

  /** `filteredServlets` / `filteredServers`: a blank search shows the
      whole list; otherwise the menu's match, without a limit. The query
      itself is lower-cased, not trimmed. */
  function ContainerServlets(fields: set<Field>, servlets: seq<Servlet>, searchQuery: string): seq<Servlet>
  {
    if Trim(searchQuery) == "" then servlets
    else Matching(servlets, fields, Lower(searchQuery))
  }

  lemma ContainerFilter(fields: set<Field>, servlets: seq<Servlet>, searchQuery: string)
    ensures (forall i :: 0 <= i < |searchQuery| ==> IsSpace(searchQuery[i])) ==>
      ContainerServlets(fields, servlets, searchQuery) == servlets
    ensures Trim(searchQuery) != "" ==> forall s ::
      s in ContainerServlets(fields, servlets, searchQuery) <==> s in servlets && Matches(s, fields, Lower(searchQuery))
  {
    TrimProperties(searchQuery);
    FilterMembers(servlets, (s: Servlet) => Matches(s, fields, Lower(searchQuery)));
  }

  /** One list entry: the `@` heading and the description line. */
  datatype Entry = Entry(heading: string, description: string)

  /** What a container shows; `RenderFails` is a render that throws. */
  datatype ContainerView = Notice(text: string) | Entries(entries: seq<Entry>) | RenderFails

  /** `@` and the slug, or the fallback for an empty slug. */
  function Label(slug: string, unnamed: string): string
  {
    "@" + (if slug != "" then slug else unnamed)
  }

  /** The tiles mentions plugin's entry: the truncated `meta.description`. */
  function ServletEntry(s: Servlet): Entry
  {
    Entry(Label(s.slug, "Unnamed Servlet"),
          if Present(MetaDescriptionOf(s)) then TruncateText(MetaDescriptionOf(s).value, DefaultMaxLength)
          else "No description available")
  }

  /** The server list's entry: the top-level description, else
      `meta.description`, untruncated. */
  function ServerEntry(s: Servlet): Entry
  {
    Entry(Label(s.slug, "Unnamed Server"),
          if Present(s.description) then s.description.value
          else if Present(MetaDescriptionOf(s)) then MetaDescriptionOf(s).value
          else "No description available")
  }

  function ServletEntries(servlets: seq<Servlet>): (r: seq<Entry>)
    ensures |r| == |servlets|
    ensures forall i :: 0 <= i < |r| ==> r[i] == ServletEntry(servlets[i])
  {
    seq(|servlets|, i requires 0 <= i < |servlets| => ServletEntry(servlets[i]))
  }

  function ServerEntries(servlets: seq<Servlet>): (r: seq<Entry>)
    ensures |r| == |servlets|
    ensures forall i :: 0 <= i < |r| ==> r[i] == ServerEntry(servlets[i])
  {
    seq(|servlets|, i requires 0 <= i < |servlets| => ServerEntry(servlets[i]))
  }

  /** `ServletsContainer` of the tiles mentions plugin. */
  function ServletsContainer(servlets: seq<Servlet>, isLoading: bool, error: Option<string>, searchQuery: string)
    : ContainerView
  {
    var shown := ContainerServlets(ServletMenu.fields, servlets, searchQuery);
    if isLoading then Notice("Loading servlets...")
    else if Present(error) then Notice("Error: " + error.value)
    else if shown == [] then Notice(if searchQuery != "" then "No servlets match your search" else "No servlets available")
    else Entries(ServletEntries(shown))
  }

  /** The server list's container. `servers` is `None` when the prop is
      `undefined`: the filter memo then throws on `.filter` for a
      non-blank search, and the render throws on `.length` once neither
      loading nor an error hides the list. */
  function ServersContainer(servers: Option<seq<Servlet>>, isLoading: bool, error: Option<string>, searchQuery: string)
    : ContainerView
  {
    if servers.None? && Trim(searchQuery) != "" then RenderFails
    else if isLoading then Notice("Loading servers...")
    else if Present(error) then Notice("Error: " + error.value)
    else if servers.None? then RenderFails
    else
      var shown := ContainerServlets(ServerMenu.fields, servers.value, searchQuery);
      if shown == [] then Notice(if searchQuery != "" then "No servers match your search" else "No servers available")
      else Entries(ServerEntries(shown))
  }

  /** The server list plugin takes `allServers` from the MCP context, whose
      value has `servlets`, `isLoading`, `error`, `refreshServlets` and
      `fetchWasmContent` but no `allServers`: the plugin reads `undefined`. */
  const ContextServers: Option<seq<Servlet>> := None

  /** The server list as wired: its menu never offers a server, and its
      container throws unless a blank search meets loading or an error. */
  lemma ServerListAsWired(queryString: Option<string>, isLoading: bool, error: Option<string>, searchQuery: string)
    ensures MenuOptions(ServerMenu, ContextServers, queryString, isLoading, error) == []
    ensures ServersContainer(ContextServers, isLoading, error, searchQuery).RenderFails?
        <==> Trim(searchQuery) != "" || (!isLoading && !Present(error))
  {
  }

  /** The server list given the context's `servlets`: its container never
      throws; without loading or an error it has entries exactly when the
      filter keeps servers, one per kept server, headed by '@' and described
      by the top-level description when there is one. */
  lemma ServersContainerEntries(servlets: seq<Servlet>, isLoading: bool, error: Option<string>, searchQuery: string)
    ensures var v := ServersContainer(Some(servlets), isLoading, error, searchQuery);
      var shown := ContainerServlets(ServerMenu.fields, servlets, searchQuery);
      !v.RenderFails?
      && (!isLoading && !Present(error) ==> (v.Entries? <==> shown != []))
      && (v.Entries? ==>
            |v.entries| == |shown|
            && forall i :: 0 <= i < |shown| ==>
                 StartsWith(v.entries[i].heading, "@")
                 && (Present(shown[i].description) ==> v.entries[i].description == shown[i].description.value))
  {
    var shown := ContainerServlets(ServerMenu.fields, servlets, searchQuery);
    forall i | 0 <= i < |shown|
      ensures StartsWith(ServerEntry(shown[i]).heading, "@")
    {
      assert ServerEntry(shown[i]).heading[..1] == "@";
    }
  }

  /** What the container promises of an entry: a short description, the
      placeholder when there is no `meta.description`, otherwise a prefix
      of it or a cut one, and a heading starting with '@'. */
  predicate EntryShape(e: Entry, s: Servlet)
  {
    |e.description| <= DefaultMaxLength + 3
    && (!Present(MetaDescriptionOf(s)) ==> e.description == "No description available")
    && (Present(MetaDescriptionOf(s)) ==>
          StartsWith(MetaDescriptionOf(s).value, e.description) || EndsWith(e.description, "..."))
    && StartsWith(e.heading, "@")
  }

  /** In the tiles mentions container, without loading or error, there
      are entries exactly when the filter keeps servlets, one per kept
      servlet, each of the promised shape: no description is longer than
      103 characters. */
  lemma ServletsContainerEntries(servlets: seq<Servlet>, error: Option<string>, searchQuery: string)
    requires !Present(error)
    ensures var v := ServletsContainer(servlets, false, error, searchQuery);
      var shown := ContainerServlets(ServletMenu.fields, servlets, searchQuery);
      (v.Entries? <==> shown != [])
      && (v.Entries? ==>
            (|v.entries| == |shown| && forall i :: 0 <= i < |shown| ==> EntryShape(v.entries[i], shown[i])))
  {
    var shown := ContainerServlets(ServletMenu.fields, servlets, searchQuery);
    forall i | 0 <= i < |shown|
      ensures EntryShape(ServletEntry(shown[i]), shown[i])
    {
      ServletEntryShape(shown[i]);
    }
  }

  lemma ServletEntryShape(s: Servlet)
    ensures EntryShape(ServletEntry(s), s)
  {
    var e := ServletEntry(s);
    assert e.heading[..1] == "@";
    if Present(MetaDescriptionOf(s)) {
      TruncateProperties(MetaDescriptionOf(s).value, DefaultMaxLength);
    }
  }

  /** Loading hides an error and the list; an error hides the list. The
      server list's notices need a list, or a blank search. */
  lemma ContainerNotices(servlets: seq<Servlet>, servers: Option<seq<Servlet>>, error: Option<string>, searchQuery: string)
    ensures ServletsContainer(servlets, true, error, searchQuery) == Notice("Loading servlets...")
    ensures Present(error) ==> ServletsContainer(servlets, false, error, searchQuery) == Notice("Error: " + error.value)
    ensures servers.Some? || Trim(searchQuery) == "" ==>
      ServersContainer(servers, true, error, searchQuery) == Notice("Loading servers...")
    ensures (servers.Some? || Trim(searchQuery) == "") && Present(error) ==>
      ServersContainer(servers, false, error, searchQuery) == Notice("Error: " + error.value)
  {
  }
}
