/** Building `requested_referents`, the per-referent summary of a presentation. */
module Referents {
  import opened Wrappers
  import opened Seqs
  import opened ProofTypes

  /** The interval a referent carries: only one named in the matching section of
      the proof request and present in the derived interval map gets one. */
  function IntervalFor(r: Referent, requested: set<Referent>, intervals: map<Referent, Interval>)
    : (iv: Option<Interval>)
    ensures iv.Some? <==> r in requested && r in intervals
    ensures iv.Some? ==> iv.value == intervals[r]
  {
    if r in requested && r in intervals then Some(intervals[r]) else None
  }

  /** `requested_referents` as the two section loops leave it: one entry per name
      in either section, the predicate section's entry winning a shared name. */
  function ReferentsOf(attrCreds: Section, predCreds: Section, request: ProofRequest,
                       intervals: map<Referent, Interval>): map<Referent, Precis> {
    map r | r in attrCreds.items.Keys + predCreds.items.Keys ::
      if r in predCreds.items then
        Precis(predCreds.items[r].credId, IntervalFor(r, request.requestedPredicates, intervals), None)
      else
        Precis(attrCreds.items[r].credId, IntervalFor(r, request.requestedAttributes, intervals), None)
  }

  /** One pass over a section, giving each of its referent names an entry with the
      item's credential id, and its interval where the request names the referent
      in that section. */
  method AddSectionReferents(section: Section, requested: set<Referent>, intervals: map<Referent, Interval>,
                             refs0: map<Referent, Precis>)
    returns (refs: map<Referent, Precis>)
    requires forall r :: r in section.items <==> r in section.order
    ensures forall r :: r in refs <==> r in refs0 || r in section.items
    ensures forall r :: r in section.items ==>
      refs[r] == Precis(section.items[r].credId, IntervalFor(r, requested, intervals), None)
    ensures forall r :: r in refs0 && r !in section.items ==> refs[r] == refs0[r]
  {
    refs := refs0;
    for j := 0 to |section.order|
      invariant forall r :: r in refs <==> r in refs0 || r in section.order[..j]
      invariant forall r :: r in section.order[..j] ==>
        refs[r] == Precis(section.items[r].credId, IntervalFor(r, requested, intervals), None)
      invariant forall r :: r in refs0 && r !in section.order[..j] ==> refs[r] == refs0[r]
    {
      var reft := section.order[j];
      var precis := Precis(section.items[reft].credId, None, None);
      if reft in requested && reft in intervals {
        precis := precis.(nonRevoked := Some(intervals[reft]));
      }
      refs := refs[reft := precis];
      assert section.order[..j + 1] == section.order[..j] + [reft];
    }
    assert section.order[..|section.order|] == section.order;
  }

  /** The attribute section is read first, then the predicate section; a predicate
      referent with the name of an attribute referent replaces its entry, keeping
      the position of the first insertion. No entry carries a timestamp yet. */
  method ExtractReferents(attrCreds: Section, predCreds: Section, request: ProofRequest,
                          intervals: map<Referent, Interval>)
    returns (order: seq<Referent>, refs: map<Referent, Precis>)
    requires attrCreds.Valid() && predCreds.Valid()
    ensures order == Dedup(attrCreds.order + predCreds.order)
    ensures forall r :: r in refs <==> r in order
    ensures refs.Keys == attrCreds.items.Keys + predCreds.items.Keys
    ensures forall r :: r in predCreds.items ==>
      refs[r] == Precis(predCreds.items[r].credId, IntervalFor(r, request.requestedPredicates, intervals), None)
    ensures forall r :: r in attrCreds.items && r !in predCreds.items ==>
      refs[r] == Precis(attrCreds.items[r].credId, IntervalFor(r, request.requestedAttributes, intervals), None)
    ensures refs == ReferentsOf(attrCreds, predCreds, request, intervals)
  {
    var attrRefs := AddSectionReferents(attrCreds, request.requestedAttributes, intervals, map[]);
    refs := AddSectionReferents(predCreds, request.requestedPredicates, intervals, attrRefs);
    order := Dedup(attrCreds.order + predCreds.order);
    DedupProperties(attrCreds.order + predCreds.order);
    BuiltIsReferentsOf(attrCreds, predCreds, request, intervals, refs);
  }

  /** A map with the keys and entries the two loops produce is `ReferentsOf`. */
  lemma BuiltIsReferentsOf(attrCreds: Section, predCreds: Section, request: ProofRequest,
                           intervals: map<Referent, Interval>, refs: map<Referent, Precis>)
    requires refs.Keys == attrCreds.items.Keys + predCreds.items.Keys
    requires forall r :: r in predCreds.items ==>
      refs[r] == Precis(predCreds.items[r].credId, IntervalFor(r, request.requestedPredicates, intervals), None)
    requires forall r :: r in attrCreds.items && r !in predCreds.items ==>
      refs[r] == Precis(attrCreds.items[r].credId, IntervalFor(r, request.requestedAttributes, intervals), None)
    ensures refs == ReferentsOf(attrCreds, predCreds, request, intervals)
  {
    var spec := ReferentsOf(attrCreds, predCreds, request, intervals);
    assert refs.Keys == spec.Keys;
    assert forall r :: r in refs ==> refs[r] == spec[r];
  }
}
