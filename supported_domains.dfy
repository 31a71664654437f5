/** The constant tables naming the sites the scraper supports: the hosts a
    link may belong to, the forums and the host name each forum maps to,
    and the DDoS-Guard protected domains with their hosts. */
module SupportedDomains {
  import opened Common

  /** `supported_hosts`, in the declared order (one display per source
      line, concatenated). */
  const SupportedHosts: seq<string> :=
    ["bunkrr", "celebforum", "coomer", "cyberdrop", "cyberfile"]
    + ["e-hentai", "erome", "fapello", "f95zone", "gofile", "hotpic"]
    + ["ibb.co", "imageban", "imgbox", "imgur", "img.kiwi", "jpg.church"]
    + ["jpg.homes", "jpg.fish", "jpg.fishing", "jpg.pet", "jpeg.pet"]
    + ["jpg1.su", "jpg2.su", "jpg3.su", "kemono", "leakedmodels"]
    + ["mediafire", "nudostar.com", "nudostar.tv", "omegascans"]
    + ["pimpandhost", "pixeldrain", "postimg", "reddit", "redd.it"]
    + ["redgifs", "rule34.xxx", "rule34.xyz", "saint", "scrolller"]
    + ["simpcity", "socialmediagirls", "toonily", "xbunker", "xbunkr"]

  /** `supported_forums`. */
  const SupportedForums: seq<string> := [
    "celebforum.to", "f95zone.to", "leakedmodels.com", "nudostar.com",
    "simpcity.su", "forums.socialmediagirls.com", "xbunker.nu"]

  /** `supported_forums_map`: forum domain to host name. */
  const SupportedForumsMap: map<string, string> := map[
    "celebforum.to" := "celebforum", "f95zone.to" := "f95zone",
    "leakedmodels.com" := "leakedmodels", "nudostar.com" := "nudostar",
    "simpcity.su" := "simpcity", "forums.socialmediagirls.com" := "socialmediagirls",
    "xbunker.nu" := "xbunker"]

  /** `supported_ddos_guard`. */
  const SupportedDdosGuard: seq<string> := [".bunkrr.su", ".coomer.su", ".kemono.su"]

  /** `supported_ddos_guard_map`: protected domain to host name. */
  const SupportedDdosGuardMap: map<string, string> := map[
    ".bunkrr.su" := "bunkrr", ".coomer.su" := "coomer", ".kemono.su" := "kemono"]

  // ---------------------------------------------------------------------
  // Proof device: every host is identified by its length and one or two of
  // its characters, which lets the solver tell the 46 entries apart.
  // ---------------------------------------------------------------------

  /** The position of `h` in `SupportedHosts`, or -1 when it is not listed. */
  ghost function HostPosition(h: string): int {
    match |h|
    case 5 => (if h[0] == 'e' then 6 else if h[0] == 'i' then 14 else if h[0] == 's' then 39 else -1)
    case 6 => (if h[2] == 'n' then 0 else if h[2] == 'o' then 2 else if h[2] == 'f' then 9 else if h[2] == 't' then 10 else if h[2] == 'b' then 11 else if h[2] == 'g' then 13 else if h[2] == 'm' then 25 else if h[2] == 'd' then 34 else if h[2] == 'u' then 45 else -1)
    case 7 => (if h[3] == 'e' then 7 else if h[3] == 'z' then 8 else if h[3] == '.' then 20 else if h[3] == '1' then 22 else if h[3] == '2' then 23 else if h[3] == '3' then 24 else if h[3] == 't' then 33 else if h[3] == 'd' then 35 else if h[3] == 'g' then 36 else if h[3] == 'n' then (if h[0] == 't' then 43 else if h[0] == 'x' then 44 else -1) else -1)
    case 8 => (if h[4] == 'n' then 5 else if h[4] == 'e' then 12 else if h[4] == 'k' then 15 else if h[4] == 'f' then 18 else if h[4] == '.' then 21 else if h[4] == 'c' then 41 else -1)
    case 9 => (if h[0] == 'c' then (if h[5] == 'd' then 3 else if h[5] == 'f' then 4 else -1) else if h[0] == 'j' then 17 else if h[0] == 'm' then 27 else if h[0] == 's' then 40 else -1)
    case 10 => (if h[8] == 'u' then 1 else if h[8] == 'c' then 16 else if h[8] == 'n' then 30 else if h[8] == 'i' then 32 else if h[8] == 'x' then 37 else if h[8] == 'y' then 38 else -1)
    case 11 => (if h[0] == 'j' then 19 else if h[0] == 'n' then 29 else if h[0] == 'p' then 31 else -1)
    case 12 => (if h[0] == 'l' then 26 else if h[0] == 'n' then 28 else -1)
    case 16 => 42
    case _ => -1
  }

  lemma HostAtLow(i: nat)
    requires 0 <= i < 23
    ensures HostPosition(SupportedHosts[i]) == i
  {
    if i == 0 {
      assert SupportedHosts[0] == "bunkrr";
    } else if i == 1 {
      assert SupportedHosts[1] == "celebforum";
    } else if i == 2 {
      assert SupportedHosts[2] == "coomer";
    } else if i == 3 {
      assert SupportedHosts[3] == "cyberdrop";
    } else if i == 4 {
      assert SupportedHosts[4] == "cyberfile";
    } else if i == 5 {
      assert SupportedHosts[5] == "e-hentai";
    } else if i == 6 {
      assert SupportedHosts[6] == "erome";
    } else if i == 7 {
      assert SupportedHosts[7] == "fapello";
    } else if i == 8 {
      assert SupportedHosts[8] == "f95zone";
    } else if i == 9 {
      assert SupportedHosts[9] == "gofile";
    } else if i == 10 {
      assert SupportedHosts[10] == "hotpic";
    } else if i == 11 {
      assert SupportedHosts[11] == "ibb.co";
    } else if i == 12 {
      assert SupportedHosts[12] == "imageban";
    } else if i == 13 {
      assert SupportedHosts[13] == "imgbox";
    } else if i == 14 {
      assert SupportedHosts[14] == "imgur";
    } else if i == 15 {
      assert SupportedHosts[15] == "img.kiwi";
    } else if i == 16 {
      assert SupportedHosts[16] == "jpg.church";
    } else if i == 17 {
      assert SupportedHosts[17] == "jpg.homes";
    } else if i == 18 {
      assert SupportedHosts[18] == "jpg.fish";
    } else if i == 19 {
      assert SupportedHosts[19] == "jpg.fishing";
    } else if i == 20 {
      assert SupportedHosts[20] == "jpg.pet";
    } else if i == 21 {
      assert SupportedHosts[21] == "jpeg.pet";
    } else {
      assert SupportedHosts[22] == "jpg1.su";
    }
  }

  lemma HostAtHigh(i: nat)
    requires 23 <= i < 46
    ensures HostPosition(SupportedHosts[i]) == i
  {
    if i == 23 {
      assert SupportedHosts[23] == "jpg2.su";
    } else if i == 24 {
      assert SupportedHosts[24] == "jpg3.su";
    } else if i == 25 {
      assert SupportedHosts[25] == "kemono";
    } else if i == 26 {
      assert SupportedHosts[26] == "leakedmodels";
    } else if i == 27 {
      assert SupportedHosts[27] == "mediafire";
    } else if i == 28 {
      assert SupportedHosts[28] == "nudostar.com";
    } else if i == 29 {
      assert SupportedHosts[29] == "nudostar.tv";
    } else if i == 30 {
      assert SupportedHosts[30] == "omegascans";
    } else if i == 31 {
      assert SupportedHosts[31] == "pimpandhost";
    } else if i == 32 {
      assert SupportedHosts[32] == "pixeldrain";
    } else if i == 33 {
      assert SupportedHosts[33] == "postimg";
    } else if i == 34 {
      assert SupportedHosts[34] == "reddit";
    } else if i == 35 {
      assert SupportedHosts[35] == "redd.it";
    } else if i == 36 {
      assert SupportedHosts[36] == "redgifs";
    } else if i == 37 {
      assert SupportedHosts[37] == "rule34.xxx";
    } else if i == 38 {
      assert SupportedHosts[38] == "rule34.xyz";
    } else if i == 39 {
      assert SupportedHosts[39] == "saint";
    } else if i == 40 {
      assert SupportedHosts[40] == "scrolller";
    } else if i == 41 {
      assert SupportedHosts[41] == "simpcity";
    } else if i == 42 {
      assert SupportedHosts[42] == "socialmediagirls";
    } else if i == 43 {
      assert SupportedHosts[43] == "toonily";
    } else if i == 44 {
      assert SupportedHosts[44] == "xbunker";
    } else {
      assert SupportedHosts[45] == "xbunkr";
    }
  }

  /** Each entry sits at its own position. */
  lemma HostPositions()
    ensures forall i :: 0 <= i < |SupportedHosts| ==> HostPosition(SupportedHosts[i]) == i
  {
    forall i | 0 <= i < |SupportedHosts|
      ensures HostPosition(SupportedHosts[i]) == i
    {
      if i < 23 {
        HostAtLow(i);
      } else {
        HostAtHigh(i);
      }
    }
  }

  // ---------------------------------------------------------------------
  // Consistency of the tables
  // ---------------------------------------------------------------------

  /** No host is listed twice. */
  lemma HostsDistinct()
    ensures NoDuplicates(SupportedHosts)
  {
    HostPositions();
  }

  /** No forum and no DDoS-Guard domain is listed twice. */
  lemma ForumsDistinct()
    ensures NoDuplicates(SupportedForums)
    ensures NoDuplicates(SupportedDdosGuard)
  {
  }

  /** The forum map covers exactly the listed forums. */
  lemma ForumsMapKeys()
    ensures SupportedForumsMap.Keys == set f | f in SupportedForums
  {
  }

  /** The DDoS-Guard map covers exactly the listed domains, each of which
      is a leading-dot domain suffix. */
  lemma DdosGuardMapKeys()
    ensures SupportedDdosGuardMap.Keys == set d | d in SupportedDdosGuard
    ensures forall d :: d in SupportedDdosGuard ==> StartsWith(d, ".")
  {
  }

  /** Every DDoS-Guard protected domain maps to a supported host. */
  lemma DdosGuardHostsSupported()
    ensures forall d :: d in SupportedDdosGuardMap ==> SupportedDdosGuardMap[d] in SupportedHosts
  {
    assert SupportedHosts[0] == "bunkrr";
    assert SupportedHosts[2] == "coomer";
    assert SupportedHosts[25] == "kemono";
  }

  /** Every forum maps to a supported host except "nudostar", which is not a
      host name: the hosts list "nudostar.com" and "nudostar.tv" instead. */
  lemma ForumHostsSupported()
    ensures forall f :: f in SupportedForumsMap ==>
      (SupportedForumsMap[f] in SupportedHosts <==> SupportedForumsMap[f] != "nudostar")
    ensures "nudostar.com" in SupportedHosts && "nudostar.tv" in SupportedHosts
  {
    assert SupportedHosts[1] == "celebforum";
    assert SupportedHosts[8] == "f95zone";
    assert SupportedHosts[26] == "leakedmodels";
    assert SupportedHosts[28] == "nudostar.com";
    assert SupportedHosts[29] == "nudostar.tv";
    assert SupportedHosts[41] == "simpcity";
    assert SupportedHosts[42] == "socialmediagirls";
    assert SupportedHosts[44] == "xbunker";
    HostPositions();
    assert HostPosition("nudostar") == -1;
  }
}
