/** The router's basename: the base URL the build was made for, with one
    trailing slash removed (unless it is the root) and a leading slash
    added when it has none. */
module AppRouter {
  import opened JsBuiltins

  /** What the basename is for a given `BASE_URL`, step by step: the root
      when it is missing or empty, a trailing slash dropped, a leading slash
      supplied. */
  function Basename(baseUrl: Option<string>): (r: string)
    ensures StartsWith(r, "/")
  {
    var b := if Truthy(baseUrl) then baseUrl.value else "/";
    var t := if b != "/" && EndsWith(b, "/") then b[..|b| - 1] else b;
    if StartsWith(t, "/") then t else "/" + t
  }

  /** The top-level statements that compute `basename`. */
  method NormalizeBasename(baseUrl: Option<string>) returns (basename: string)
    ensures basename == Basename(baseUrl)
  {
    basename := "/";
    if Truthy(baseUrl) {
      basename := baseUrl.value;
    }
    if basename != "/" && EndsWith(basename, "/") {
      basename := basename[..|basename| - 1];
    }
    if !StartsWith(basename, "/") {
      basename := "/" + basename;
    }
  }

  /** A missing or empty base URL gives the root. */
  lemma MissingBaseIsRoot()
    ensures Basename(None) == "/"
    ensures Basename(Some("")) == "/"
  {
  }

  /** The root is kept as it is. */
  lemma RootUnchanged()
    ensures Basename(Some("/")) == "/"
  {
  }

  /** The production base of the site loses its trailing slash. */
  lemma ProductionBase()
    ensures Basename(Some("/marble-majesty-ui/")) == "/marble-majesty-ui"
  {
    var b := "/marble-majesty-ui/";
    assert EndsWith(b, "/");
    var t := b[..|b| - 1];
    assert t == "/marble-majesty-ui";
    assert StartsWith(t, "/");
  }

  /** The result is the base URL with at most one trailing slash removed and
      at most one leading slash added: exactly one is removed when the URL
      is not the root and ends with one, and one is added exactly when what
      is left does not start with one. */
  lemma BasenameEdits(s: string)
    requires s != ""
    ensures var t := if s != "/" && EndsWith(s, "/") then s[..|s| - 1] else s;
            |t| == (if s != "/" && EndsWith(s, "/") then |s| - 1 else |s|) &&
            t <= s &&
            (Basename(Some(s)) == t <==> StartsWith(t, "/")) &&
            (Basename(Some(s)) == "/" + t <==> !StartsWith(t, "/"))
  {
    var t := if s != "/" && EndsWith(s, "/") then s[..|s| - 1] else s;
    if StartsWith(t, "/") {
      assert Basename(Some(s)) == t;
      assert |"/" + t| != |t|;
    } else {
      assert Basename(Some(s)) == "/" + t;
      assert ("/" + t)[..1] == "/";
    }
  }

  /** The basenames that come back unchanged are exactly the root and the
      paths that start with a slash and do not end with one. */
  lemma FixedPointsIff(s: string)
    requires s != ""
    ensures Basename(Some(s)) == s <==> StartsWith(s, "/") && (s == "/" || !EndsWith(s, "/"))
  {
    if StartsWith(s, "/") && s != "/" && EndsWith(s, "/") {
      var t := s[..|s| - 1];
      assert |s| >= 2;
      assert t[..1] == s[..1];
      assert Basename(Some(s)) == t;
    }
  }

  /** The basename of a base of the form `/name/` with a non-empty name and no
      inner slash is `/name`, and normalising that again changes nothing. */
  lemma SlashedNameBase(name: string)
    requires name != "" && '/' !in name
    ensures Basename(Some("/" + name + "/")) == "/" + name
    ensures Basename(Some("/" + name)) == "/" + name
  {
    var s := "/" + name + "/";
    assert EndsWith(s, "/");
    assert s[..|s| - 1] == "/" + name;
    assert ("/" + name)[..1] == "/";
    var u := "/" + name;
    assert u[|u| - 1] == name[|name| - 1];
    assert name[|name| - 1] in name;
    FixedPointsIff(u);
  }
}
