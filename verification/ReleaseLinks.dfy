/** Pointing the managed links, as the operations they are, when nobody kills the process. */
module ReleaseLinks {
  import opened Prelude
  import opened Activation

  class Prefix {
    const releases: set<string>
    var links: Links
    var temps: set<(Link, nat)>

    constructor (releases: set<string>, links: Links, temps: set<(Link, nat)>)
      ensures this.releases == releases && this.links == links && this.temps == temps
    {
      this.releases, this.links, this.temps := releases, links, temps;
    }

    /** `point`: `created` and `replaced` say whether the two operations succeed. Whatever happens, no
        temporary link of this call remains and one that was there before is not taken away. */
    method Point(link: Link, pid: nat, target: string, created: bool, replaced: bool) returns (ok: bool)
      modifies this
      ensures ok <==> created && replaced && (link, pid) !in old(temps)
      ensures links == if ok then SetLink(old(links), link, target) else old(links)
      ensures temps == old(temps)
    {
      var mine := false;
      ok := false;
      if created && (link, pid) !in temps {
        temps := temps + {(link, pid)};
        mine := true;
        if replaced {
          links := SetLink(links, link, target);
          temps := temps - {(link, pid)};
          ok := true;
        }
      }
      if mine {
        temps := temps - {(link, pid)};
      }
      assert temps == old(temps);
    }

    /** A rollback exchanges the links, or, when its second half fails, leaves both on the release that
        was the previous one. */
    method Rollback(pid: nat, first: bool, second: bool) returns (ok: bool)
      modifies this
      ensures ok ==> links == Links(old(links).previous, old(links).current)
      ensures !ok ==> links == old(links) || links == Links(old(links).previous, old(links).previous)
      ensures ok <==>
        && old(links).current.Some? && old(links).previous.Some? && first && second
        && (Current, pid) !in old(temps) && (Previous, pid) !in old(temps)
      ensures temps == old(temps)
    {
      var current, previous := links.current, links.previous;
      if current.None? || previous.None? {
        return false;
      }
      ok := Point(Current, pid, previous.value, first, first);
      if ok {
        ok := Point(Previous, pid, current.value, second, second);
      }
    }
  }
}
