/**
  The base URL the bot reports back to the admin: a domain saved with
  `/setdomain` in `domain.json`, else the hosting platform's
  `RENDER_EXTERNAL_URL`, else the `DOMAIN` variable, else localhost.
 */
module Domain {
  import opened Wrappers
  import opened Os
  import opened PyStr
  import opened Store

  type DomainDoc = map<string, string>

  const DomainKey := "domain"
  const RenderUrlVar := "RENDER_EXTERNAL_URL"
  const DomainVar := "DOMAIN"
  const PortVar := "PORT"
  const DefaultPort := "8080"
  const Http := "http://"
  const Https := "https://"

  /** `load_json(DOMAIN_DB, {}).get("domain")` */
  function SavedDomain(db: JsonFile<DomainDoc>): (d: Option<string>)
    ensures db.Unreadable? ==> d.None?
    ensures d.Some? <==> db.Parsed? && DomainKey in db.doc
    ensures d.Some? ==> d.value == db.doc[DomainKey]
  {
    var data := LoadJson(db, map[]);
    if DomainKey in data then Some(data[DomainKey]) else None
  }

  /** Python truthiness of an optional string: present and non-empty. */
  predicate Truthy(s: Option<string>) {
    s.Some? && s.value != []
  }

  /**
    `get_domain()`: a non-empty saved domain wins as it is; a URL taken
    from the environment never ends with `/`; otherwise the link points
    at localhost.
   */
  function GetDomain(db: JsonFile<DomainDoc>, env: Env): (r: string)
    ensures Truthy(SavedDomain(db)) ==> r == SavedDomain(db).value
    ensures !Truthy(SavedDomain(db)) && (Truthy(GetEnv(env, RenderUrlVar)) || Truthy(GetEnv(env, DomainVar))) ==>
      r == [] || r[|r| - 1] != '/'
    ensures !Truthy(SavedDomain(db)) && !Truthy(GetEnv(env, RenderUrlVar)) && !Truthy(GetEnv(env, DomainVar)) ==>
      StartsWith(r, "http://localhost:")
  {
    var saved := SavedDomain(db);
    if Truthy(saved) then saved.value
    else
      var renderUrl := GetEnv(env, RenderUrlVar);
      if Truthy(renderUrl) then RStripChar(renderUrl.value, '/')
      else
        var envDomain := GetEnv(env, DomainVar);
        if Truthy(envDomain) then RStripChar(envDomain.value, '/')
        else "http://localhost:" + GetEnvOr(env, PortVar, DefaultPort)
  }

  /** `set_domain(domain)`: the new content of `domain.json`. */
  function SetDomain(domain: string): (f: JsonFile<DomainDoc>)
    ensures f.Parsed? && f.doc.Keys == {DomainKey}
    ensures SavedDomain(f) == Some(RStripChar(domain, '/'))
  {
    Parsed(map[DomainKey := RStripChar(domain, '/')])
  }

  predicate HasScheme(s: string) {
    StartsWith(s, Http) || StartsWith(s, Https)
  }

  /** The `/setdomain` normalisation: `https://` is put in front of a domain without a scheme. */
  function WithScheme(domain: string): (r: string)
    ensures HasScheme(r)
    ensures |domain| <= |r| && r[|r| - |domain|..] == domain
    ensures r == domain <==> HasScheme(domain)
    ensures !HasScheme(domain) ==> r == Https + domain
  {
    if !StartsWith(domain, Http) && !StartsWith(domain, Https) then Https + domain else domain
  }

  /**
    The argument of `/setdomain`: the text after the command word, with
    surrounding whitespace removed; `None` when there is none.
   */
  function SetDomainArgument(text: string): (r: Option<string>)
    ensures r.None? <==> |SplitMaxOne(text)| < 2
    ensures r.Some? ==> r.value != [] && !IsSpace(r.value[0]) && !IsSpace(r.value[|r.value| - 1])
  {
    var parts := SplitMaxOne(text);
    if |parts| < 2 then None else Some(Strip(parts[1]))
  }

  /**
    The source order of `get_domain`: a non-empty saved domain, then the
    two environment variables with trailing `/` removed, then localhost
    with `PORT` (by default 8080).
   */
  lemma DomainPriority(db: JsonFile<DomainDoc>, env: Env)
    ensures Truthy(SavedDomain(db)) ==> GetDomain(db, env) == SavedDomain(db).value
    ensures !Truthy(SavedDomain(db)) && Truthy(GetEnv(env, RenderUrlVar)) ==>
      GetDomain(db, env) == RStripChar(env[RenderUrlVar], '/')
    ensures !Truthy(SavedDomain(db)) && !Truthy(GetEnv(env, RenderUrlVar)) && Truthy(GetEnv(env, DomainVar)) ==>
      GetDomain(db, env) == RStripChar(env[DomainVar], '/')
    ensures !Truthy(SavedDomain(db)) && !Truthy(GetEnv(env, RenderUrlVar)) && !Truthy(GetEnv(env, DomainVar)) ==>
      GetDomain(db, env) == "http://localhost:" + (if PortVar in env then env[PortVar] else "8080")
  {
  }

  /** A missing or corrupt `domain.json` behaves exactly like one with no saved domain. */
  lemma UnreadableMeansUnset(env: Env)
    ensures GetDomain(Unreadable, env) == GetDomain(Parsed(map[]), env)
    ensures GetDomain(Unreadable, env) == GetDomain(Parsed(map[DomainKey := ""]), env)
  {
  }

  /** With nothing saved and nothing configured, the link points at `http://localhost:8080`. */
  lemma DefaultDomain()
    ensures GetDomain(Unreadable, map[]) == "http://localhost:8080"
  {
  }

  /** After `set_domain(d)`, `get_domain()` returns `d` without its trailing slashes, whatever the environment. */
  lemma SetThenGet(domain: string, env: Env)
    requires RStripChar(domain, '/') != []
    ensures GetDomain(SetDomain(domain), env) == RStripChar(domain, '/')
  {
  }

  /**
    What `/setdomain` stores always starts with `http:` or `https:` and is
    never empty, so `get_domain()` returns it unchanged afterwards.
   */
  lemma StoredDomainShape(arg: string, env: Env)
    ensures var stored := RStripChar(WithScheme(arg), '/');
      && (StartsWith(stored, "http:") || StartsWith(stored, "https:"))
      && GetDomain(SetDomain(WithScheme(arg)), env) == stored
  {
    SchemeSurvivesStrip(WithScheme(arg));
  }

  /** Stripping trailing `/` from a URL with a scheme keeps at least `http:` or `https:`. */
  lemma SchemeSurvivesStrip(u: string)
    requires HasScheme(u)
    ensures var stored := RStripChar(u, '/');
      StartsWith(stored, "http:") || StartsWith(stored, "https:")
  {
    var stored := RStripChar(u, '/');
    var prefix := if StartsWith(u, Http) then "http:" else "https:";
    assert u[|prefix| - 1] != '/';
    assert |prefix| <= |stored|;
    assert stored[..|prefix|] == u[..|prefix|];
  }

  function SchemeLength(u: string): nat
    requires HasScheme(u)
  {
    if StartsWith(u, Http) then |Http| else |Https|
  }

  /**
    The stored domain keeps its full `http://` or `https://` prefix exactly
    when something other than `/` follows the scheme.
   */
  lemma StoredSchemeIff(arg: string)
    ensures var u := WithScheme(arg);
      HasScheme(RStripChar(u, '/')) <==> exists i | SchemeLength(u) <= i < |u| :: u[i] != '/'
  {
    var u := WithScheme(arg);
    if exists i | SchemeLength(u) <= i < |u| :: u[i] != '/' {
      var i :| SchemeLength(u) <= i < |u| && u[i] != '/';
      HostKeepsScheme(u, i);
    } else {
      SlashesLoseScheme(u);
    }
  }

  lemma HostKeepsScheme(u: string, i: int)
    requires HasScheme(u) && SchemeLength(u) <= i < |u| && u[i] != '/'
    ensures HasScheme(RStripChar(u, '/'))
  {
    var stored := RStripChar(u, '/');
    var n := SchemeLength(u);
    assert i < |stored|;
    assert stored[..n] == u[..n];
  }

  lemma SlashesLoseScheme(u: string)
    requires HasScheme(u) && forall i | SchemeLength(u) <= i < |u| :: u[i] == '/'
    ensures !HasScheme(RStripChar(u, '/'))
  {
    var n := SchemeLength(u);
    assert |RStripChar(u, '/')| <= n - 2 by {
      assert u[n - 1] == '/' && u[n - 2] == '/';
    }
  }

  /** `/setdomain https://` stores `https:`, which is not a URL with a scheme. */
  lemma HostlessDomainLosesScheme()
    ensures RStripChar(WithScheme(Https), '/') == "https:"
    ensures !HasScheme("https:")
  {
    assert WithScheme(Https) == Https;
    assert Https[..|Https| - 1] == "https:/";
    assert "https:/"[..6] == "https:";
  }

  /** `/setdomain <arg>` with a trimmed argument reads back exactly that argument. */
  lemma SetDomainArgumentOf(command: string, gap: string, arg: string)
    requires command != [] && NoSpace(command)
    requires gap != [] && AllSpace(gap)
    requires arg != [] && !IsSpace(arg[0]) && !IsSpace(arg[|arg| - 1])
    ensures SetDomainArgument(command + gap + arg) == Some(arg)
  {
    SplitMaxOneCommand(command, gap, arg);
    StripTrimmed(arg);
  }
}
