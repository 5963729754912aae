/** The metric store: the process-wide mapping from a sample's identity to
    the latest sample written under it. The exporter keys it by a hash of the
    identity; the model keys it by the identity itself (title and ordered label
    values), so two identities never share an entry. */
module MetricStore {
  import opened Types

  /** The identity a sample is written under. */
  function KeyOf(s: Sample): MetricKey
  {
    MetricKey(s.title, s.labelValues)
  }

  class Store {
    /** Every identity written so far and the last sample written under it. */
    var entries: map<MetricKey, Sample>

    constructor ()
      ensures entries == map[]
    {
      entries := map[];
    }

    /** Write `sample` under `key`, replacing whatever was there. */
    method Set(key: MetricKey, sample: Sample)
      modifies this
      ensures entries == old(entries)[key := sample]
      ensures entries.Keys == old(entries).Keys + {key}
      ensures entries[key] == sample
      ensures forall k :: k in old(entries) && k != key ==> entries[k] == old(entries)[k]
    {
      entries := entries[key := sample];
    }
  }

  /** Writing the same identity twice leaves one entry, holding the second
      sample; every other identity keeps its entry, and the number of entries
      grows by at most one. */
  lemma SetTwice(m: map<MetricKey, Sample>, key: MetricKey, first: Sample, second: Sample)
    ensures m[key := first][key := second] == m[key := second]
    ensures m[key := first][key := second][key] == second
    ensures forall k :: k in m && k != key ==> m[key := first][key := second][k] == m[k]
    ensures |m[key := first][key := second]| == if key in m then |m| else |m| + 1
  {
  }

  /** The identity ignores label names: two samples with the same title and
      label values but different label names occupy one entry, and the later
      write wins. */
  lemma KeyIgnoresLabelNames(m: map<MetricKey, Sample>, s1: Sample, s2: Sample)
    requires s1.title == s2.title && s1.labelValues == s2.labelValues
    ensures KeyOf(s1) == KeyOf(s2)
    ensures m[KeyOf(s1) := s1][KeyOf(s2) := s2] == m[KeyOf(s1) := s2]
  {
  }
}
