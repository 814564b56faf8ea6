/** Two fault-free runs compared: what does not depend on the delivered keys and the threshold. */
module TwoRuns {
  import opened Wrappers
  import opened Keys
  import opened Repositories
  import opened DetectionRun
  import opened OneRun

  /** The same limits, whatever the thresholds and destinations. */
  predicate SameLimits(a: Policy, b: Policy) {
    a.limit == b.limit && a.maxPages == b.maxPages
  }

  /** The parts of a tally that the delivered keys and the threshold cannot influence. */
  predicate Agree(a: Tally, b: Tally) {
    && a.collected == b.collected && a.processed == b.processed && a.fetched == b.fetched
    && a.observed == b.observed && a.cursors == b.cursors && a.cut == b.cut
  }

  lemma {:induction false} ScanPageIndependent(p: Policy, q: Policy, cutoff: int, known: set<Key>, known': set<Key>,
                                               t: Tally, t': Tally, ds: seq<Detection>)
    requires SameLimits(p, q) && Agree(t, t')
    ensures Agree(ScanPage(p, cutoff, known, t, ds), ScanPage(q, cutoff, known', t', ds))
    decreases |ds|
  {
    if ds != [] && !t.cut {
      ScanPageIndependent(p, q, cutoff, known, known',
                          Visit(p, cutoff, known, t, ds[0]), Visit(q, cutoff, known', t', ds[0]), ds[1..]);
    }
  }

  lemma {:induction false} ScanPagesIndependent(p: Policy, q: Policy, cutoff: int, known: set<Key>, known': set<Key>,
                                                source: Source, t: Tally, t': Tally, token: Option<Token>)
    requires SameLimits(p, q) && Agree(t, t')
    ensures Agree(ScanPages(p, cutoff, known, source, t, token), ScanPages(q, cutoff, known', source, t', token))
    decreases Max(p.maxPages, 0) - t.fetched
  {
    if t.fetched < Max(p.maxPages, 0) {
      var page := source(token);
      ScanPageIndependent(p, q, cutoff, known, known',
                          t.(fetched := t.fetched + 1), t'.(fetched := t'.fetched + 1), page.detections);
      var m, m' := PageScan(p, cutoff, known, t, page), PageScan(q, cutoff, known', t', page);
      if GoesOn(p, m, page) {
        ScanPagesIndependent(p, q, cutoff, known, known', source, m, m', page.next);
      }
    }
  }

  /**
   Two runs from the same token with the same limits fetch the same pages, read the same
   detections, store the same tokens and report the same collected count, whatever was
   delivered before and whatever their thresholds are.
   */
  lemma RunsIndependent(p: Policy, q: Policy, cutoff: int, known: set<Key>, known': set<Key>, source: Source,
                        token: Option<Token>)
    requires SameLimits(p, q)
    ensures var a, b := Collect(p, cutoff, known, source, token), Collect(q, cutoff, known', source, token);
            && a.fetched == b.fetched && a.cursors == b.cursors && a.collected == b.collected
            && a.observed == b.observed && a.cut == b.cut && LastToken(a, token) == LastToken(b, token)
  {
    ScanPagesIndependent(p, q, cutoff, known, known', source, ZERO, ZERO, token);
  }

  lemma {:induction false} HigherThresholdNotifiesLess(p: Policy, q: Policy, ds: seq<Detection>)
    requires p.destination == q.destination && p.minSeverity.Rank() <= q.minSeverity.Rank()
    ensures KeysOf(Notifiable(q, ds)) <= KeysOf(Notifiable(p, ds))
  {
    if ds != [] {
      HigherThresholdNotifiesLess(p, q, ds[1..]);
      var n := Note(p.destination, ds[0]);
      assert [n][1..] == [];
      KeysOfAppend([n], Notifiable(p, ds[1..]));
      KeysOfAppend([n], Notifiable(q, ds[1..]));
      assert [] + Notifiable(p, ds[1..]) == Notifiable(p, ds[1..]);
      assert [] + Notifiable(q, ds[1..]) == Notifiable(q, ds[1..]);
    }
  }

  /**
   The keys a run sends are the notifiable ones not delivered before, so a larger delivered
   set or a higher threshold only shrinks the set of keys sent.
   */
  lemma HigherThresholdSendsLess(p: Policy, q: Policy, cutoff: int, known: set<Key>, known': set<Key>,
                                 source: Source, token: Option<Token>)
    requires SameLimits(p, q) && p.destination == q.destination
    requires p.minSeverity.Rank() <= q.minSeverity.Rank() && known <= known'
    ensures KeysOf(Collect(q, cutoff, known', source, token).sent)
         <= KeysOf(Collect(p, cutoff, known, source, token).sent)
  {
    var considered := Considered(p, cutoff, Detections(Chain(source, token, Max(p.maxPages, 0))));
    assert considered == Considered(q, cutoff, Detections(Chain(source, token, Max(q.maxPages, 0))));
    OneRunSends(p, cutoff, known, source, token);
    OneRunSends(q, cutoff, known', source, token);
    FirstOccurrencesKeys(known, Notifiable(p, considered));
    FirstOccurrencesKeys(known', Notifiable(q, considered));
    HigherThresholdNotifiesLess(p, q, considered);
  }
}
