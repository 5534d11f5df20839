/**
 * Training: each press of a training button captures a fixed number of
 * frames and adds the embedding of each one to the classifier's example
 * store under the button's label.
 */
module Training {

  /** Samples taken per training session. */
  const TrainingTimes: nat := 50

  /** A frame's feature vector, as the embedding model produces it. */
  type Embedding = seq<real>

  /** The classifier's examples: for each label, its embeddings in the order added. */
  type Store = map<string, seq<Embedding>>

  /** The examples of one label; a label never trained has none. */
  function Bucket(store: Store, category: string): seq<Embedding>
  {
    if category in store then store[category] else []
  }

  /** The store after one `addExample`: the label's bucket gains the embedding at its end. */
  function WithExample(store: Store, category: string, e: Embedding): (r: Store)
    ensures Bucket(r, category) == Bucket(store, category) + [e]
    ensures forall l :: l != category ==> Bucket(r, l) == Bucket(store, l)
    ensures r.Keys == store.Keys + {category}
  {
    store[category := Bucket(store, category) + [e]]
  }

  /**
   * The store after adding the embeddings one at a time, first to last: all
   * of them are appended, in order, to the label's bucket and to no other.
   */
  function WithExamples(store: Store, category: string, es: seq<Embedding>): (r: Store)
    ensures Bucket(r, category) == Bucket(store, category) + es
    ensures forall l :: l != category ==> Bucket(r, l) == Bucket(store, l)
    ensures r.Keys == store.Keys + (if es == [] then {} else {category})
    decreases |es|
  {
    if es == [] then store
    else
      var init := es[..|es| - 1];
      assert init + [es[|es| - 1]] == es;
      WithExample(WithExamples(store, category, init), category, es[|es| - 1])
  }

  /** Adding the first `i + 1` embeddings is adding the first `i`, then one more. */
  lemma AddOneMore(store: Store, category: string, es: seq<Embedding>, i: nat)
    requires i < |es|
    ensures WithExamples(store, category, es[..i + 1]) == WithExample(WithExamples(store, category, es[..i]), category, es[i])
  {
    assert es[..i + 1][..i] == es[..i];
  }

  /** The embeddings of the frames captured during one session. */
  function Samples(embedAt: nat -> Embedding): (r: seq<Embedding>)
    ensures |r| == TrainingTimes
    ensures forall i :: 0 <= i < TrainingTimes ==> r[i] == embedAt(i)
  {
    seq(TrainingTimes, (i: int) requires 0 <= i => embedAt(i))
  }

  /** The nearest-neighbour classifier's example store, grown in place. */
  class Classifier {
    var examples: Store

    constructor ()
      ensures examples == map[]
    {
      examples := map[];
    }

    method AddExample(e: Embedding, category: string)
      modifies this
      ensures examples == WithExample(old(examples), category, e)
    {
      examples := examples[category := Bucket(examples, category) + [e]];
    }
  }

  /** One sample: the current frame's embedding is added under the label. */
  method TrainingStep(classifier: Classifier, category: string, embedding: Embedding)
    modifies classifier
    ensures classifier.examples == WithExample(old(classifier.examples), category, embedding)
  {
    classifier.AddExample(embedding, category);
  }

  /**
   * A training session for one label; `embedAt(i)` is the embedding of the
   * frame captured at the i-th sample.
   */
  method Train(classifier: Classifier, category: string, embedAt: nat -> Embedding)
    modifies classifier
    ensures classifier.examples == WithExamples(old(classifier.examples), category, Samples(embedAt))
    ensures Bucket(classifier.examples, category) == Bucket(old(classifier.examples), category) + Samples(embedAt)
    ensures |Bucket(classifier.examples, category)| == |Bucket(old(classifier.examples), category)| + TrainingTimes
    ensures forall l :: l != category ==> Bucket(classifier.examples, l) == Bucket(old(classifier.examples), l)
  {
    ghost var base, samples := classifier.examples, Samples(embedAt);
    for i := 0 to TrainingTimes
      invariant classifier.examples == WithExamples(base, category, samples[..i])
    {
      AddOneMore(base, category, samples, i);
      TrainingStep(classifier, category, embedAt(i));
    }
    assert samples[..TrainingTimes] == samples;
  }
}
