/** backend/hotfix_sync.py, `stable_change_key`: the text a semantic key is the hash of. */
module ChangeKey {
  import opened Documents

  function Shown(identity: Option<string>): string {
    if identity.None? || identity.value == "" then "-" else identity.value
  }

  function Material(item: string, change: string, prior: Option<string>, next: Option<string>): string {
    item + "|" + change + "|" + Shown(prior) + "|" + Shown(next)
  }

  predicate Unbarred(s: string) {
    '|' !in s
  }

  lemma NoBarBefore(a: string, b: string)
    requires Unbarred(a)
    ensures (a + "|" + b)[|a|] == '|' && forall i :: 0 <= i < |a| ==> (a + "|" + b)[i] != '|'
  {
    forall i | 0 <= i < |a| ensures (a + "|" + b)[i] != '|' {
      assert (a + "|" + b)[i] == a[i];
    }
  }

  lemma FirstBarDecides(a: string, b: string, c: string, d: string)
    requires Unbarred(a) && Unbarred(c) && a + "|" + b == c + "|" + d
    ensures a == c && b == d
  {
    var s := a + "|" + b;
    NoBarBefore(a, b);
    NoBarBefore(c, d);
    assert |a| == |c|;
    assert a == s[..|a|] && c == s[..|c|] && b == s[|a| + 1..] && d == s[|c| + 1..];
  }

  predicate Identity(identity: Option<string>) {
    identity.Some? ==> identity.value != "" && identity.value != "-" && Unbarred(identity.value)
  }

  lemma ShownIsInjective(a: Option<string>, b: Option<string>)
    requires Identity(a) && Identity(b)
    ensures Shown(a) == Shown(b) <==> a == b
  {
  }

  function Identities(prior: Option<string>, next: Option<string>): string {
    Shown(prior) + "|" + Shown(next)
  }

  lemma IdentitiesAreInjective(prior: Option<string>, next: Option<string>, prior2: Option<string>,
      next2: Option<string>)
    requires Identity(prior) && Identity(next) && Identity(prior2) && Identity(next2)
    ensures Identities(prior, next) == Identities(prior2, next2) <==> prior == prior2 && next == next2
  {
    ShownIsInjective(prior, prior2);
    ShownIsInjective(next, next2);
    if Identities(prior, next) == Identities(prior2, next2) {
      FirstBarDecides(Shown(prior), Shown(next), Shown(prior2), Shown(next2));
    }
  }

  lemma MaterialNests(item: string, change: string, prior: Option<string>, next: Option<string>)
    ensures Material(item, change, prior, next) == item + "|" + (change + "|" + Identities(prior, next))
  {
  }

  /** Item ids, kinds of change and hashes hold no bar, so two keys have the same text exactly when they are
      about the same item, change and contents. */
  lemma MaterialIsInjective(item: string, change: string, prior: Option<string>, next: Option<string>,
      item2: string, change2: string, prior2: Option<string>, next2: Option<string>)
    requires Unbarred(item) && Unbarred(change) && Identity(prior) && Identity(next)
    requires Unbarred(item2) && Unbarred(change2) && Identity(prior2) && Identity(next2)
    ensures Material(item, change, prior, next) == Material(item2, change2, prior2, next2) <==>
      item == item2 && change == change2 && prior == prior2 && next == next2
  {
    MaterialNests(item, change, prior, next);
    MaterialNests(item2, change2, prior2, next2);
    if Material(item, change, prior, next) == Material(item2, change2, prior2, next2) {
      var rest, rest2 := Identities(prior, next), Identities(prior2, next2);
      FirstBarDecides(item, change + "|" + rest, item2, change2 + "|" + rest2);
      FirstBarDecides(change, rest, change2, rest2);
      IdentitiesAreInjective(prior, next, prior2, next2);
    }
  }
}
