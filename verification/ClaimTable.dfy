/** The claim table itself (`activePartials`), in place, against the world's claims. */
module ClaimTable {
  import opened Prelude
  import opened Receivers

  /** One transfer's hold on a .partial path; `token` numbers the object. */
  class PartialClaim {
    const token: Token
    var lastWrite: nat

    constructor (token: Token, now: nat)
      ensures this.token == token && lastWrite == now
    {
      this.token, lastWrite := token, now;
    }
  }

  class ActivePartials {
    var paths: map<Path, PartialClaim>
    ghost var all: set<PartialClaim>

    constructor ()
      ensures paths == map[] && all == {}
    {
      paths, all := map[], {};
    }

    /** The table and every claim ever made agree with the world's. */
    ghost predicate Mirrors(w: World)
      reads this, all
    {
      && paths.Keys == w.claims.Keys
      && (forall p :: p in paths ==> paths[p] in all && paths[p].token == w.claims[p])
      && (forall c :: c in all ==> c.token < w.nextToken && c.token in w.last && c.lastWrite == w.last[c.token])
      && (forall c, d :: c in all && d in all && c.token == d.token ==> c == d)
    }

    method PartialHeld(p: Path, now: nat, ghost w: World) returns (held: bool)
      requires Mirrors(w) && w.now == now
      ensures held <==> HeldLive(w, p)
    {
      held := p in paths && now - paths[p].lastWrite < STALE_AFTER;
    }

    method ClaimPartial(p: Path, now: nat, ghost w: World, token: Token)
      returns (c: PartialClaim?, prev: PartialClaim?)
      requires Mirrors(w) && w.now == now && token == w.nextToken
      modifies this
      ensures (c == null <==> HeldLive(w, p)) && old(all) <= all
      ensures c == null ==> prev == null && Mirrors(w) && paths == old(paths)
      ensures c != null ==> Mirrors(Claim(w, p)) && fresh(c) && c.token == w.nextToken && c in all
      ensures c != null ==> (prev == null <==> p !in w.claims) && (prev != null ==> prev in all && prev.token == w.claims[p])
    {
      prev := if p in paths then paths[p] else null;
      if prev != null && now - prev.lastWrite < STALE_AFTER { return null, null; }
      c := new PartialClaim(token, now);
      paths := paths[p := c];
      all := all + {c};
    }

    /** A successful check refreshes the claim, and that is all it changes. */
    method StillHolds(p: Path, c: PartialClaim, now: nat, ghost w: World) returns (ok: bool)
      requires Mirrors(w) && w.now == now && c in all
      modifies c
      ensures ok <==> Holds(w, p, c.token)
      ensures Mirrors(if ok then Refresh(w, c.token) else w)
    {
      if p !in paths || paths[p] != c { return false; }
      c.lastWrite := now;
      return true;
    }

    method UnclaimPartial(p: Path, c: PartialClaim, prev: PartialClaim?, ghost w: World)
      requires Mirrors(w) && c in all && (prev != null ==> prev in all)
      modifies this
      ensures all == old(all)
      ensures Mirrors(w.(claims := Unclaimed(w.claims, p, c.token, if prev != null then Some(prev.token) else None)))
    {
      if p !in paths || paths[p] != c { return; }
      if prev != null { paths := paths[p := prev]; } else { paths := paths - {p}; }
    }
  }
}
