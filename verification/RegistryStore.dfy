/**
 * The agent's in-memory registry credentials. Every SetRegistries carries the
 * full set, so Set replaces the whole map.
 */
module RegistryStore {
  import opened Wrappers
  import opened Messages

  datatype Login = Login(username: string, token: string)

  function ToLowerChar(c: char): char {
    if 'A' <= c <= 'Z' then c - 'A' + 'a' else c
  }

  /** Lower-casing of host names, which are ASCII. */
  function ToLower(s: string): (r: string)
    ensures |r| == |s| && forall i :: 0 <= i < |s| ==>
              !('A' <= r[i] <= 'Z') && (r[i] == s[i] || r[i] as int == s[i] as int + 32)
  {
    seq(|s|, i requires 0 <= i < |s| => ToLowerChar(s[i]))
  }

  /** The map a snapshot stands for: a later entry for a host wins, a hostless one is skipped. */
  function CredMap(creds: seq<Cred>): map<string, Login> {
    if creds == [] then map[]
    else
      var last := creds[|creds| - 1];
      var rest := CredMap(creds[..|creds| - 1]);
      if ToLower(last.host) == "" then rest else rest[ToLower(last.host) := Login(last.username, last.token)]
  }

  ghost predicate IsLastFor(creds: seq<Cred>, host: string, i: nat) {
    i < |creds| && ToLower(creds[i].host) == host &&
    forall j :: i < j < |creds| ==> ToLower(creds[j].host) != host
  }

  /** Lookup finds, for a host, the last entry of the snapshot that names it. */
  lemma {:induction false} CredMapIsLastEntry(creds: seq<Cred>, host: string)
    ensures host in CredMap(creds) <==> host != "" && exists i: nat :: IsLastFor(creds, host, i)
    ensures forall i: nat :: host != "" && IsLastFor(creds, host, i) ==>
              host in CredMap(creds) && CredMap(creds)[host] == Login(creds[i].username, creds[i].token)
  {
    if creds != [] {
      var n := |creds| - 1;
      CredMapIsLastEntry(creds[..n], host);
      if ToLower(creds[n].host) == host {
        assert IsLastFor(creds, host, n);
      } else {
        forall i: nat ensures IsLastFor(creds, host, i) <==> IsLastFor(creds[..n], host, i) {
        }
      }
    }
  }

  class Store {
    var byHost: map<string, Login>

    constructor ()
      ensures byHost == map[]
    {
      byHost := map[];
    }

    method Set(creds: seq<Cred>)
      modifies this
      ensures byHost == CredMap(creds)
    {
      var m: map<string, Login> := map[];
      var i := 0;
      while i < |creds|
        invariant 0 <= i <= |creds|
        invariant m == CredMap(creds[..i])
      {
        assert creds[..i + 1][..i] == creds[..i];
        var host := ToLower(creds[i].host);
        if host != "" {
          m := m[host := Login(creds[i].username, creds[i].token)];
        }
        i := i + 1;
      }
      assert creds[..i] == creds;
      byHost := m;
    }

    /** Answers from the last snapshot alone: the login of the last entry that names the host, if one does. */
    method Lookup(host: string, ghost last: seq<Cred>) returns (r: Option<Login>)
      requires byHost == CredMap(last)
      ensures r.Some? <==> host != "" && exists i: nat :: IsLastFor(last, host, i)
      ensures forall i: nat :: r.Some? && IsLastFor(last, host, i) ==>
                r.value == Login(last[i].username, last[i].token)
    {
      CredMapIsLastEntry(last, host);
      if host in byHost {
        return Some(byHost[host]);
      }
      r := None;
    }
  }
}
