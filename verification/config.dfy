/** Backend settings: the defaults and the parsing of the CORS origin
    list. */
module Config {
  import opened Common
  import opened Text

  datatype Settings = Settings(
    postgresDb: string,
    postgresUser: string,
    postgresPassword: string,
    postgresHost: string,
    postgresPort: int,
    ingestApiKey: string,
    corsOrigins: string)

  /** The values used when neither the environment nor the env file sets
      them: no ingest key and no CORS origins. */
  const DefaultSettings: Settings := Settings("sensing_db", "postgres", "dev_password", "localhost", 5433, "", "")

  predicate NonEmpty(s: string) {
    s != []
  }

  /** `get_cors_origins`: nothing for an empty setting; otherwise the
      comma-separated pieces, stripped, with the empty ones dropped. */
  function CorsOrigins(raw: string): (r: seq<string>)
    ensures raw == "" ==> r == []
    ensures forall i :: 0 <= i < |r| ==> r[i] != "" && Stripped(r[i]) && ',' !in r[i]
  {
    if raw == "" then []
    else
      var pieces := Split(raw, ',');
      var stripped := Map(Strip, pieces);
      assert forall i :: 0 <= i < |stripped| ==> CommaFreeStripped(stripped[i]) by {
        forall i | 0 <= i < |stripped|
          ensures CommaFreeStripped(stripped[i])
        {
          assert ',' !in pieces[i];
        }
      }
      FilterKeeps(NonEmpty, CommaFreeStripped, stripped);
      Filter(NonEmpty, stripped)
  }

  predicate CommaFreeStripped(s: string) {
    Stripped(s) && ',' !in s
  }

  function GetCorsOrigins(s: Settings): seq<string> {
    CorsOrigins(s.corsOrigins)
  }

  /** A well-formed origin: non-empty, stripped, without a comma. */
  predicate Origin(o: string) {
    o != [] && Stripped(o) && ',' !in o
  }

  /** Origins written as a comma-separated list parse back to the same
      list in the same order. */
  lemma CorsOriginsRoundTrip(origins: seq<string>)
    requires forall i :: 0 <= i < |origins| ==> Origin(origins[i])
    ensures CorsOrigins(Join(origins, ",")) == origins
  {
    if origins != [] {
      SplitJoin(origins, ',');
      JoinNonEmpty(origins, ",");
      forall i | 0 <= i < |origins|
        ensures Strip(origins[i]) == origins[i]
      {
        StripOfStripped(origins[i]);
      }
      ParsesAs(Join(origins, ","), origins, origins);
    }
  }

  /** The same holds with a space after each comma. */
  lemma CorsOriginsSpacedRoundTrip(origins: seq<string>)
    requires forall i :: 0 <= i < |origins| ==> Origin(origins[i])
    ensures CorsOrigins(Join(origins, ", ")) == origins
  {
    if origins != [] {
      var spaced := Spaced(origins);
      var raw := Join(origins, ", ");
      StripSpaced(origins);
      assert Split(raw, ',') == spaced by {
        SplitJoin(spaced, ',');
        JoinSpaced(origins);
      }
      assert raw != "" by {
        JoinNonEmpty(origins, ", ");
      }
      ParsesAs(raw, spaced, origins);
    }
  }

  /** The pieces of a ", " join as a "," split sees them: every piece after
      the first carries the space. */
  function Spaced(ps: seq<string>): (r: seq<string>)
    requires ps != []
    ensures |r| == |ps| && r[0] == ps[0]
    ensures forall i :: 1 <= i < |ps| ==> r[i] == " " + ps[i]
  {
    [ps[0]] + Map((o: string) => " " + o, ps[1..])
  }

  lemma StripSpaced(origins: seq<string>)
    requires origins != []
    requires forall i :: 0 <= i < |origins| ==> Origin(origins[i])
    ensures forall i :: 0 <= i < |origins| ==> ',' !in Spaced(origins)[i] && Strip(Spaced(origins)[i]) == origins[i]
  {
    var spaced := Spaced(origins);
    forall i | 0 <= i < |origins|
      ensures ',' !in spaced[i] && Strip(spaced[i]) == origins[i]
    {
      if i == 0 {
        StripOfStripped(origins[0]);
      } else {
        StripPadded(" ", origins[i], "");
        assert " " + origins[i] + "" == spaced[i];
      }
    }
  }

  /** A non-empty setting whose pieces strip to non-empty origins parses to
      exactly those origins. */
  lemma ParsesAs(raw: string, pieces: seq<string>, origins: seq<string>)
    requires raw != "" && Split(raw, ',') == pieces && |pieces| == |origins|
    requires forall i :: 0 <= i < |pieces| ==> Strip(pieces[i]) == origins[i] && origins[i] != []
    ensures CorsOrigins(raw) == origins
  {
    assert Map(Strip, pieces) == origins;
    FilterAll(NonEmpty, origins);
  }

  lemma {:induction false} JoinNonEmpty(ps: seq<string>, sep: string)
    requires ps != [] && ps[0] != []
    ensures Join(ps, sep) != []
  {
  }

  /** A ", " join is a "," join of the pieces after the first, each with a
      leading space. */
  lemma {:induction false} JoinSpaced(ps: seq<string>)
    requires ps != []
    ensures Join(ps, ", ") == Join(Spaced(ps), ",")
  {
    if |ps| > 1 {
      var tail := ps[1..];
      JoinSpaced(tail);
      var spacedTail := Spaced(tail);
      var spaced := Spaced(ps);
      assert spaced[1..] == [" " + spacedTail[0]] + spacedTail[1..];
      JoinPrefixFirst(spacedTail, " ");
    }
  }

  /** Prefixing the first piece prefixes the join. */
  lemma JoinPrefixFirst(ps: seq<string>, pre: string)
    requires ps != []
    ensures Join([pre + ps[0]] + ps[1..], ",") == pre + Join(ps, ",")
  {
    var qs := [pre + ps[0]] + ps[1..];
    assert qs[1..] == ps[1..];
  }
}
