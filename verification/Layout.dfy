/** Where the legacy identity was and where a user's identity belongs; modes of what gets created. */
module Layout {
  import opened Kernel
  import opened Growth

  const IDENTITY_FILE := "hopr.id"
  const PASSWORD_FILE := "hopr.pass"
  const SAFE_FILE := "hopr.safe"
  const PIX_DIR := "pix"
  const PIX_DB_FILE := "curvy-pix.redb"
  const MIGRATED_FROM_FILE := "migrated-from"
  const LEGACY_CONFIG_DIR := ".config"
  const LEGACY_IDENTITY_FILE := "gnosisvpn-hopr.id"
  const LEGACY_PASSWORD_FILE := "gnosisvpn-hopr.pass"
  const LEGACY_SAFE_FILE := "gnosisvpn-hopr.safe"
  const NETWORKS_DIR := "networks"

  // 0o700, 0o600 and 0o755
  const DIR_MODE := 448
  const FILE_MODE := 384
  const SHARED_DIR_MODE := 493

  datatype Place = Data | Cache

  /** Where a user's two sides lie below the home, and the directories on the way that are asked for first, each with
      a mode. */
  datatype UserLayout = UserLayout(data: Path, cache: Path, parents: seq<(Path, nat)>)

  const MAC := UserLayout(["Library", "Application Support", "GnosisVPN"], ["Library", "Caches", "GnosisVPN"],
                          [(["Library"], DIR_MODE), (["Library", "Application Support"], SHARED_DIR_MODE),
                           (["Library", "Caches"], SHARED_DIR_MODE)])

  const LINUX := UserLayout([".local", "share", "gnosisvpn"], [".cache", "gnosisvpn"],
                            [([".local"], SHARED_DIR_MODE), ([".local", "share"], SHARED_DIR_MODE),
                             ([".cache"], SHARED_DIR_MODE)])

  /** The `networks/` directory of one side. */
  function Nets(l: UserLayout, place: Place): Path {
    (if place.Data? then l.data else l.cache) + [NETWORKS_DIR]
  }

  function NetworkDir(l: UserLayout, place: Place, net: Name): Path {
    Nets(l, place) + [net]
  }

  /** Neither side lies inside the other, and every parent leads to one of them. */
  ghost predicate WellLaid(l: UserLayout) {
    && !(Nets(l, Data) <= Nets(l, Cache)) && !(Nets(l, Cache) <= Nets(l, Data))
    && forall k :: 0 <= k < |l.parents| ==> l.parents[k].0 <= Nets(l, Data) || l.parents[k].0 <= Nets(l, Cache)
  }

  /** Every path `Networks::create` may create. */
  ghost function Chain(l: UserLayout): set<Path> {
    Prefixes(Nets(l, Data)) + Prefixes(Nets(l, Cache))
  }

  lemma BothLayoutsWellLaid()
    ensures WellLaid(MAC) && WellLaid(LINUX)
  {
    assert Nets(MAC, Data)[1] != Nets(MAC, Cache)[1] && Nets(LINUX, Data)[0] != Nets(LINUX, Cache)[0];
  }

  lemma PrefixesMonotone(p: Path, q: Path)
    requires p <= q
    ensures Prefixes(p) <= Prefixes(q)
  {
    forall x | x in Prefixes(p) ensures x in Prefixes(q) {
      var k :| 0 < k <= |p| && x == p[..k];
      assert x == q[..k];
    }
  }

  lemma ParentsInChain(l: UserLayout, p: Path)
    requires p <= Nets(l, Data) || p <= Nets(l, Cache)
    ensures Prefixes(p) <= Chain(l)
  {
    if p <= Nets(l, Data) { PrefixesMonotone(p, Nets(l, Data)); } else { PrefixesMonotone(p, Nets(l, Cache)); }
  }
}
