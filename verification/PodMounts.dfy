/** Mount paths: nothing a container mounts is hidden by a mount that comes after it. Paths are compared as
    they are written, which is right for absolute ones without `.`, `..` or repeated slashes. */
module PodMounts {
  import opened Options
  import opened MintTypes
  import opened Choices
  import opened ConfigToml
  import opened Pod

  /** `q` is the directory `p` or lies below it, so that a mount at `p` covers it. */
  predicate Covers(p: string, q: string) {
    p == q || p + "/" <= q
  }

  predicate NothingHidden(ms: seq<Mount>) {
    forall i, j | 0 <= i < j < |ms| :: !Covers(ms[j].path, ms[i].path)
  }

  lemma DifferAt(p: string, q: string, k: nat)
    requires k < |p| && (k < |q| ==> p[k] != q[k])
    ensures !Covers(p, q)
  {
    var d := p + "/";
    assert d[k] == p[k];
  }

  lemma HiddenAmongChoices(cs: seq<Choice<Mount>>)
    requires forall i, j | 0 <= i < j < |cs| && cs[i].on && cs[j].on :: !Covers(cs[j].item.path, cs[i].item.path)
    ensures NothingHidden(Chosen(cs))
  {
    var ms := Chosen(cs);
    forall i, j | 0 <= i < j < |ms| ensures !Covers(ms[j].path, ms[i].path) {
      var k, l := ChosenOrder(cs, i, j);
    }
  }

  const MINT_PATHS: seq<string> :=
    ["/data", "/data/config.toml", "/secrets/lnd/macaroon", "/secrets/lnd/cert", "/secrets/grpc",
        "/secrets/management-rpc-tls"]

  /** Where the later path of a pair leaves the earlier one, by the pair's later index. */
  lemma MintPathsApart(i: nat, j: nat)
    requires i < j < 6
    ensures !Covers(MINT_PATHS[j], MINT_PATHS[i])
  {
    if i < 2 {
      DifferAt(MINT_PATHS[j], MINT_PATHS[i], if j == 1 then 5 else 1);
    } else {
      DifferAt(MINT_PATHS[j], MINT_PATHS[i], if j == 3 then 13 else 9);
    }
  }

  lemma MintNothingHidden(s: Spec)
    ensures NothingHidden(Chosen(MintMounts(s)))
  {
    var cs := MintMounts(s);
    assert forall i | 0 <= i < 6 :: cs[i].item.path == MINT_PATHS[i];
    forall i, j | 0 <= i < j < |cs| && cs[i].on && cs[j].on ensures !Covers(cs[j].item.path, cs[i].item.path) {
      MintPathsApart(i, j);
    }
    HiddenAmongChoices(cs);
  }

  const ORCHARD_PATHS: seq<string> :=
    ["/app/data", "/app/data/tmp", "/mnt/mint", "/secrets/management-rpc-tls", "/secrets/orchard/lightning/macaroon",
     "/secrets/orchard/lightning/cert", "/secrets/orchard/lightning/key", "/secrets/orchard/lightning/ca",
     "/secrets/orchard/taproot/macaroon", "/secrets/orchard/taproot/cert"]

  /** Where the later path of a pair leaves the earlier one. */
  function Fork(i: nat, j: nat): nat
    requires i < j < 10
  {
    if j == 1 then 9 else if i < 3 then 1 else if i == 3 then 9 else if j >= 8 && i < 8 then 17
    else if j >= 8 then 25 else if i == 5 && j == 7 then 28 else 27
  }

  lemma OrchardPathsApart(i: nat, j: nat)
    requires i < j < 10
    ensures !Covers(ORCHARD_PATHS[j], ORCHARD_PATHS[i])
  {
    DifferAt(ORCHARD_PATHS[j], ORCHARD_PATHS[i], Fork(i, j));
  }

  lemma OrchardPaths(s: Spec)
    ensures |OrchardMounts(s)| == 10
    ensures forall i | 0 <= i < 10 :: OrchardMounts(s)[i].item.path == ORCHARD_PATHS[i]
  {}

  lemma OrchardNothingHidden(s: Spec)
    ensures NothingHidden(Chosen(OrchardMounts(s)))
  {
    var cs := OrchardMounts(s);
    OrchardPaths(s);
    forall i, j | 0 <= i < j < |cs| && cs[i].on && cs[j].on ensures !Covers(cs[j].item.path, cs[i].item.path) {
      OrchardPathsApart(i, j);
    }
    HiddenAmongChoices(cs);
  }

  /** In the sidecar the user names a path, and its own TLS mount hides it exactly when the path, written
      without `.`, `..` or repeated slashes, is the TLS directory or lies in it. */
  lemma SidecarNothingHidden(s: Spec)
    ensures NothingHidden(Chosen(SidecarMounts(s)))
       <==> !(SidecarDir(s) != "" && SidecarTLSRef(s).Some? && Covers("/secrets/sidecar-tls", SidecarDir(s)))
  {
    var cs := SidecarMounts(s);
    var ms := Chosen(cs);
    ChosenTwo(cs[0], cs[1]);
    if cs[0].on && cs[1].on {
      assert ms == [cs[0].item, cs[1].item];
      assert NothingHidden(ms) ==> !Covers(ms[1].path, ms[0].path);
    } else {
      assert |ms| <= 1;
    }
  }
}
