/** The ten deployment endpoints both scripts send load to, and how a
    deployment's id is read back out of its path. */
module Deployments {
  import opened Text

  datatype Option<T> = None | Some(value: T)

  /** The deployments under load, in the order of the scripts' tasks. */
  const DeploymentIds: seq<string> := [
    "shinyapp01",
    "web_app_02",
    "web_app_03",
    "339a9b52-0eba-422a-b280-c87b9cc89045",
    "a31aa9bc-8d35-42a3-9d6a-20bedf8909b8",
    "ea17ea35-6e1d-4381-8b10-7cb2bd099a52",
    "efbdf1b5-a044-4c69-ad1d-ec461bacbc20",
    "d8c4c363-febb-41d0-8840-c415d33691c5",
    "351715bc-b1e3-4a02-a87c-d830cf8ca6e8",
    "1a984df3-0f63-451f-bc4f-83a3af5b5d11"
  ]

  const EndpointSuffix := "r_shiny?version=2021-05-01"

  /** The path segments of the R Shiny endpoint of deployment `id`. */
  function PathSegments(id: string): seq<string>
  {
    ["ml", "v4", "deployments", id, EndpointSuffix]
  }

  /** The R Shiny endpoint path of deployment `id`. */
  function DeploymentPath(id: string): string
  {
    "ml/v4/deployments/" + id + "/" + EndpointSuffix
  }

  /** The endpoint paths, relative to the cluster's domain, that both scripts
      list as `BASE_URLS`: entry `i` is
      "ml/v4/deployments/" + DeploymentIds[i] + "/r_shiny?version=2021-05-01". */
  const BaseUrls: seq<string> := [
    DeploymentPath(DeploymentIds[0]), DeploymentPath(DeploymentIds[1]),
    DeploymentPath(DeploymentIds[2]), DeploymentPath(DeploymentIds[3]),
    DeploymentPath(DeploymentIds[4]), DeploymentPath(DeploymentIds[5]),
    DeploymentPath(DeploymentIds[6]), DeploymentPath(DeploymentIds[7]),
    DeploymentPath(DeploymentIds[8]), DeploymentPath(DeploymentIds[9])
  ]

  /** `path.split('/')[3].split('?')[0]`: the fourth '/'-separated segment cut
      at its first '?'; None where Python's indexing raises IndexError. */
  function DeploymentId(path: string): Option<string>
  {
    var segments := Split(path, '/');
    if |segments| < 4 then None else Some(Split(segments[3], '?')[0])
  }

  /** An endpoint path is its segments joined with '/'. */
  lemma PathIsJoinedSegments(id: string)
    ensures DeploymentPath(id) == Join(PathSegments(id), '/')
  {
    var segs := PathSegments(id);
    calc {
      Join(segs, '/');
      "ml" + "/" + Join(segs[1..], '/');
      "ml" + "/" + ("v4" + "/" + Join(segs[2..], '/'));
      "ml" + "/" + ("v4" + "/" + ("deployments" + "/" + Join(segs[3..], '/')));
      "ml" + "/" + ("v4" + "/" + ("deployments" + "/" + (id + "/" + Join(segs[4..], '/'))));
      "ml" + "/" + ("v4" + "/" + ("deployments" + "/" + (id + "/" + EndpointSuffix)));
      DeploymentPath(id);
    }
  }

  /** Reading the id back out of a deployment's path gives the id, for any id
      free of '/' and '?'. */
  lemma DeploymentIdOfPath(id: string)
    requires '/' !in id && '?' !in id
    ensures Split(DeploymentPath(id), '/') == PathSegments(id)
    ensures DeploymentId(DeploymentPath(id)) == Some(id)
  {
    var segs := PathSegments(id);
    PathIsJoinedSegments(id);
    assert '/' !in EndpointSuffix;
    assert SeparatorFree(segs, '/');
    SplitJoin(segs, '/');
  }

  // Showing that a 36-character id holds neither '/' nor '?' costs the
  // verifier a few hundred thousand steps per id, and one lemma over all ten
  // ids exceeds its resource bound; so each long id has a lemma of its own
  // and IdIsSeparatorFree picks the one for index i.

  lemma ShortIdsAreSeparatorFree()
    ensures forall i :: 0 <= i < 3 ==> '/' !in DeploymentIds[i] && '?' !in DeploymentIds[i]
  {
  }

  lemma Id3IsSeparatorFree()
    ensures '/' !in DeploymentIds[3] && '?' !in DeploymentIds[3]
  {
  }

  lemma Id4IsSeparatorFree()
    ensures '/' !in DeploymentIds[4] && '?' !in DeploymentIds[4]
  {
  }

  lemma Id5IsSeparatorFree()
    ensures '/' !in DeploymentIds[5] && '?' !in DeploymentIds[5]
  {
  }

  lemma Id6IsSeparatorFree()
    ensures '/' !in DeploymentIds[6] && '?' !in DeploymentIds[6]
  {
  }

  lemma Id7IsSeparatorFree()
    ensures '/' !in DeploymentIds[7] && '?' !in DeploymentIds[7]
  {
  }

  lemma Id8IsSeparatorFree()
    ensures '/' !in DeploymentIds[8] && '?' !in DeploymentIds[8]
  {
  }

  lemma Id9IsSeparatorFree()
    ensures '/' !in DeploymentIds[9] && '?' !in DeploymentIds[9]
  {
  }

  /** No id contains '/' or '?', so each survives being read back whole. */
  lemma IdIsSeparatorFree(i: nat)
    requires i < |DeploymentIds|
    ensures '/' !in DeploymentIds[i] && '?' !in DeploymentIds[i]
  {
    if i < 3 {
      ShortIdsAreSeparatorFree();
    } else if i == 3 {
      Id3IsSeparatorFree();
    } else if i == 4 {
      Id4IsSeparatorFree();
    } else if i == 5 {
      Id5IsSeparatorFree();
    } else if i == 6 {
      Id6IsSeparatorFree();
    } else if i == 7 {
      Id7IsSeparatorFree();
    } else if i == 8 {
      Id8IsSeparatorFree();
    } else {
      Id9IsSeparatorFree();
    }
  }

  /** Entry `i` of the table is the endpoint path of the `i`-th id. */
  lemma TableEntry(i: nat)
    requires i < |BaseUrls|
    ensures |BaseUrls| == |DeploymentIds| == 10
    ensures BaseUrls[i] == DeploymentPath(DeploymentIds[i])
  {
  }

  /** The id read out of entry `i` of the table is the `i`-th deployment id. */
  lemma TableDeploymentId(i: nat)
    requires i < |BaseUrls|
    ensures |BaseUrls| == 10
    ensures BaseUrls[i] == DeploymentPath(DeploymentIds[i])
    ensures DeploymentId(BaseUrls[i]) == Some(DeploymentIds[i])
  {
    TableEntry(i);
    IdIsSeparatorFree(i);
    DeploymentIdOfPath(DeploymentIds[i]);
  }
}
