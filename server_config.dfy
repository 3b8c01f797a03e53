/** The list of configured MCP servers. The configuration file is an in-memory list
    here: loading it yields the current list and saving it stores the new one. */
module ServerConfigs {
  import opened Common
  import opened OrderedDict
  import opened Json

  /** One configured server. */
  datatype ServerConfig = ServerConfig(
    name: string,
    url: string,
    description: Option<string>,
    enabled: bool,
    timeout: int,
    priority: int,
    tags: seq<string>,
    metadata: Dict<Json>)

  /** The record `add_server_config` builds: every field it is not given keeps the
      model's default, and missing (or empty) tags become the empty list. */
  function NewServerConfig(name: string, url: string, description: Option<string> := None,
                           enabled: bool := true, timeout: int := 30, priority: int := 0,
                           tags: Option<seq<string>> := None): (c: ServerConfig)
    ensures c.name == name && c.url == url && c.description == description
    ensures c.enabled == enabled && c.timeout == timeout && c.priority == priority
    ensures tags.Some? ==> c.tags == tags.value
    ensures tags.None? ==> c.tags == []
    ensures c.metadata == []
  {
    ServerConfig(name, url, description, enabled, timeout, priority, tags.GetOr([]), [])
  }

  /** A record built from a name and a URL alone is enabled, has a 30 second timeout,
      priority 0, no description, no tags and no metadata. */
  lemma ServerConfigDefaults(name: string, url: string)
    ensures NewServerConfig(name, url) == ServerConfig(name, url, None, true, 30, 0, [], [])
  {
  }

  /** No two configured servers share a name. */
  ghost predicate DistinctNames(s: seq<ServerConfig>) {
    forall i, j :: 0 <= i < j < |s| ==> s[i].name != s[j].name
  }

  /** No two configured servers share a URL. */
  ghost predicate DistinctUrls(s: seq<ServerConfig>) {
    forall i, j :: 0 <= i < j < |s| ==> s[i].url != s[j].url
  }

  /** Index of the first server called `name`, or `|s|` when there is none. */
  function IndexOfName(s: seq<ServerConfig>, name: string): (i: nat)
    ensures i <= |s|
    ensures i < |s| ==> s[i].name == name
    ensures forall j :: 0 <= j < i ==> s[j].name != name
  {
    if s == [] then 0 else if s[0].name == name then 0 else 1 + IndexOfName(s[1..], name)
  }

  /** `get_server_config(name)`: the first server with that name, or `None`. */
  function GetServerConfig(s: seq<ServerConfig>, name: string): (r: Option<ServerConfig>)
    ensures r.None? <==> forall i :: 0 <= i < |s| ==> s[i].name != name
    ensures r.Some? ==> exists i :: 0 <= i < |s| && s[i] == r.value && r.value.name == name
                                   && forall j :: 0 <= j < i ==> s[j].name != name
  {
    if s == [] then None
    else if s[0].name == name then Some(s[0])
    else
      var r := GetServerConfig(s[1..], name);
      assert r.Some? ==> exists i :: 0 <= i < |s| && s[i] == r.value && r.value.name == name
                                   && forall j :: 0 <= j < i ==> s[j].name != name by {
        if r.Some? {
          var i :| 0 <= i < |s[1..]| && s[1..][i] == r.value && r.value.name == name
                   && forall j :: 0 <= j < i ==> s[1..][j].name != name;
          assert s[i + 1] == r.value;
          assert forall j :: 0 <= j < i + 1 ==> s[j].name != name by {
            forall j | 0 <= j < i + 1 ensures s[j].name != name {
              if j > 0 { assert s[j] == s[1..][j - 1]; }
            }
          }
        }
      }
      r
  }

  /** Removing the entry at `i` keeps the others in order: what `list.pop(i)` does. */
  function RemoveAt(s: seq<ServerConfig>, i: nat): seq<ServerConfig>
    requires i < |s|
  {
    s[..i] + s[i + 1..]
  }

  /** Removing an entry keeps the names and the URLs of the rest distinct. */
  lemma RemoveAtDistinct(s: seq<ServerConfig>, i: nat)
    requires i < |s| && DistinctNames(s) && DistinctUrls(s)
    ensures DistinctNames(RemoveAt(s, i)) && DistinctUrls(RemoveAt(s, i))
  {
    var r := RemoveAt(s, i);
    forall a, b | 0 <= a < b < |r| ensures r[a].name != r[b].name && r[a].url != r[b].url {
      var a' := if a < i then a else a + 1;
      var b' := if b < i then b else b + 1;
      assert r[a] == s[a'] && r[b] == s[b'];
    }
  }

  /** With distinct names, the only server called `name` is gone once it is removed
      and every other lookup is unaffected. */
  lemma {:induction false} GetAfterRemove(s: seq<ServerConfig>, name: string, other: string)
    requires DistinctNames(s) && IndexOfName(s, name) < |s|
    ensures GetServerConfig(RemoveAt(s, IndexOfName(s, name)), name).None?
    ensures other != name ==>
      GetServerConfig(RemoveAt(s, IndexOfName(s, name)), other) == GetServerConfig(s, other)
  {
    var tail := s[1..];
    if s[0].name == name {
      assert RemoveAt(s, 0) == tail;
      forall k | 0 <= k < |tail| ensures tail[k].name != name {
        assert tail[k] == s[k + 1];
      }
    } else {
      var i := IndexOfName(tail, name);
      assert IndexOfName(s, name) == i + 1;
      assert DistinctNames(tail) by {
        forall a, b | 0 <= a < b < |tail| ensures tail[a].name != tail[b].name {
          assert tail[a] == s[a + 1] && tail[b] == s[b + 1];
        }
      }
      GetAfterRemove(tail, name, other);
      assert RemoveAt(s, i + 1) == [s[0]] + RemoveAt(tail, i);
      assert ([s[0]] + RemoveAt(tail, i))[1..] == RemoveAt(tail, i);
    }
  }

  /** An appended server is what a later lookup of its name finds, when its name was
      new. */
  lemma {:induction false} GetAfterAppend(s: seq<ServerConfig>, c: ServerConfig)
    requires forall i :: 0 <= i < |s| ==> s[i].name != c.name
    ensures GetServerConfig(s + [c], c.name) == Some(c)
  {
    if s != [] {
      assert (s + [c])[1..] == s[1..] + [c];
      GetAfterAppend(s[1..], c);
    }
  }

  /** The configured servers, as `load_config` would return them. */
  class ConfigStore {
    var servers: seq<ServerConfig>

    /** The invariant `add_server_config` maintains. */
    ghost predicate Valid()
      reads this
    {
      DistinctNames(servers) && DistinctUrls(servers)
    }

    /** An absent configuration file reads as an empty list. */
    constructor()
      ensures servers == [] && Valid()
    {
      servers := [];
    }

    /** `list_server_configs()`: the servers in file order; no two share a name or a URL. */
    function ListServerConfigs(): (r: seq<ServerConfig>)
      reads this
      ensures Valid() ==> DistinctNames(r) && DistinctUrls(r)
    {
      servers
    }

    /** `add_server_config(...)`: rejects a name or a URL already present, otherwise
        appends the new record at the end. */
    method AddServerConfig(name: string, url: string, description: Option<string> := None,
                           enabled: bool := true, timeout: int := 30, priority: int := 0,
                           tags: Option<seq<string>> := None) returns (added: bool)
      modifies this
      ensures added <==> forall i :: 0 <= i < |old(servers)| ==>
                           old(servers)[i].name != name && old(servers)[i].url != url
      ensures added ==> servers == old(servers) + [NewServerConfig(name, url, description, enabled, timeout, priority, tags)]
      ensures !added ==> servers == old(servers)
      ensures old(Valid()) ==> Valid()
    {
      var i := 0;
      while i < |servers|
        invariant 0 <= i <= |servers| && servers == old(servers)
        invariant forall j :: 0 <= j < i ==> servers[j].name != name && servers[j].url != url
      {
        if servers[i].name == name || servers[i].url == url {
          return false;
        }
        i := i + 1;
      }
      servers := servers + [NewServerConfig(name, url, description, enabled, timeout, priority, tags)];
      return true;
    }

    /** `remove_server_config(name)`: pops the first server with that name. */
    method RemoveServerConfig(name: string) returns (removed: bool)
      modifies this
      ensures removed <==> exists i :: 0 <= i < |old(servers)| && old(servers)[i].name == name
      ensures removed ==> servers == RemoveAt(old(servers), IndexOfName(old(servers), name))
      ensures !removed ==> servers == old(servers)
      ensures old(Valid()) ==> Valid()
    {
      var i := 0;
      while i < |servers|
        invariant 0 <= i <= |servers| && servers == old(servers)
        invariant forall j :: 0 <= j < i ==> servers[j].name != name
      {
        if servers[i].name == name {
          assert IndexOfName(servers, name) == i;
          if Valid() {
            RemoveAtDistinct(servers, i);
          }
          servers := servers[..i] + servers[i + 1..];
          return true;
        }
        i := i + 1;
      }
      return false;
    }
  }
}
