/** The body check the three providers share: Python's evaluation of the
    handler's `try` block, and an independent description of the payloads
    it accepts. The providers differ only in which repository fields the
    handler reads while logging (`url`, and for GitHub also `size`). */
module Payload {
  import opened Wrappers
  import opened Json

  /** True when no `commit['timestamp']` or `commit['message']` in the
      logging loop raises. */
  predicate CommitsReadable(commits: seq<Json>) {
    forall i :: 0 <= i < |commits| ==>
      GetItem(commits[i], "timestamp").Some? && GetItem(commits[i], "message").Some?
  }

  /** The `if 'commits' in r and r['commits']:` block on a dict `r`: false
      exactly when `len(...)`, the iteration or a commit field raises. */
  predicate CommitsLogged(r: Json) {
    if !Contains(r, "commits") then true
    else
      var commits := GetItem(r, "commits").value;
      if !Truthy(commits) then true
      else if !HasLen(commits) then false
      else CommitsReadable(Iter(commits).value)
  }

  /** The `try` block of `body_filter`, step by step; every exception the
      block raises is caught and gives false. `logged` lists the repository
      fields the log line reads after the name check. */
  predicate FilterBody(body: Option<Json>, repoName: string, logged: seq<string>)
    ensures FilterBody(body, repoName, logged) ==>
      && body.Some? && body.value.JObject?
      && GetItem(body.value, "repository").Some?
      && GetItem(GetItem(body.value, "repository").value, "name") == Some(JString(repoName))
  {
    if body.None? || !Truthy(body.value) then false
    else
      var r := body.value;
      match GetItem(r, "repository")
      case None => false
      case Some(repository) =>
        match GetItem(repository, "name")
        case None => false
        case Some(name) =>
          if name != JString(repoName) then false
          else if exists k :: k in logged && GetItem(repository, k).None? then false
          else CommitsLogged(r)
  }

  /** A well-formed commit entry: an object with a timestamp and a message. */
  predicate IsCommit(v: Json) {
    v.JObject? && HasKey(v.members, "timestamp") && HasKey(v.members, "message")
  }

  /** The accepted payloads, stated without Python's evaluation order: an
      object whose `repository` object names the local repository and has
      every logged field, and whose `commits`, if present and non-empty, is
      a list of commit entries. */
  predicate IsPushPayload(body: Option<Json>, repoName: string, logged: seq<string>) {
    && body.Some?
    && body.value.JObject?
    && HasKey(body.value.members, "repository")
    && var repository := Field(body.value.members, "repository").value;
    && repository.JObject?
    && Field(repository.members, "name") == Some(JString(repoName))
    && (forall k :: k in logged ==> HasKey(repository.members, k))
    && (HasKey(body.value.members, "commits") ==>
          var commits := Field(body.value.members, "commits").value;
          !Truthy(commits) || (commits.JArray? && forall i :: 0 <= i < |commits.items| ==> IsCommit(commits.items[i])))
  }

  /** A truthy `commits` value that is not a list yields at least one string
      item, and a string has no fields: the handler rejects it. */
  lemma NonListCommitsRejected(commits: Json)
    requires Truthy(commits) && HasLen(commits) && !commits.JArray?
    ensures !CommitsReadable(Iter(commits).value)
  {
    var items := Iter(commits).value;
    assert items != [] && items[0].JString?;
    assert GetItem(items[0], "timestamp").None?;
  }

  /** The handler's evaluation accepts exactly the push payloads: the body
      check never depends on anything but the decoded value. */
  lemma FilterBodyIsPushPayload(body: Option<Json>, repoName: string, logged: seq<string>)
    ensures FilterBody(body, repoName, logged) <==> IsPushPayload(body, repoName, logged)
  {
    if body.Some? && body.value.JObject? && HasKey(body.value.members, "commits") {
      var commits := Field(body.value.members, "commits").value;
      if Truthy(commits) && HasLen(commits) && !commits.JArray? {
        NonListCommitsRejected(commits);
      }
    }
  }
}
