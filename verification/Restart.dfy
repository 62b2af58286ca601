/** Restart-rate estimation (internal/collector/restart.go). Rates, minutes and
    the half-life factor math.Pow(0.5, dt) are real-valued; the factor is a
    parameter `half`. */
module Restart {
  import opened Seqs
  import opened Health

  datatype Sample = Sample(count: int, at: real, rate: real)

  type Half = real -> real

  predicate Multiplies(half: Half, a: real, b: real) {
    half(a + b) == half(a) * half(b)
  }

  predicate IsFraction(half: Half, a: real) {
    half(a) > 0.0 && (a >= 0.0 ==> half(a) <= 1.0)
  }

  /** What the estimator needs of the half-life factor. */
  ghost predicate IsHalfLife(half: Half) {
    (forall a, b :: Multiplies(half, a, b)) && (forall a :: IsFraction(half, a))
  }

  const FLOOR := 0.05

  function Quietened(rate: real): real {
    if rate < FLOOR then 0.0 else rate
  }

  function NextRate(half: Half, prev: Option<Sample>, count: int, now: real): real {
    match prev
    case None => 0.0
    case Some(p) =>
      var dt := now - p.at;
      if count > p.count && dt > 0.0 then (count - p.count) as real / dt
      else if count < p.count then 0.0
      else if dt > 0.0 then Quietened(p.rate * half(dt))
      else p.rate
  }

  function NextSample(half: Half, prev: Option<Sample>, count: int, now: real): Sample {
    Sample(count, now, NextRate(half, prev, count, now))
  }

  function Get<V>(m: map<string, V>, k: string): Option<V> {
    if k in m then Some(m[k]) else None
  }

  // ------------------------------------------------------------------ tracker

  /** A pod as the rebuild shows it to the tracker. */
  datatype PodSeen = PodSeen(key: string, containers: seq<ContainerStatus>)

  function ContainerKey(podKey: string, name: string): string {
    podKey + "/" + name
  }

  /** No two containers of these pods share a key, and no two pods do. */
  ghost predicate KeysApart(pods: seq<PodSeen>) {
    && (forall i, j :: 0 <= i < j < |pods| ==> pods[i].key != pods[j].key)
    && (forall i, j, a, b :: 0 <= i < |pods| && 0 <= j < |pods|
          && 0 <= a < |pods[i].containers| && 0 <= b < |pods[j].containers|
          && ContainerKey(pods[i].key, pods[i].containers[a].name)
             == ContainerKey(pods[j].key, pods[j].containers[b].name)
          ==> i == j && a == b)
  }

  predicate IsContainerKey(pod: PodSeen, n: nat, k: string)
    requires n <= |pod.containers|
  {
    exists a :: 0 <= a < n && k == ContainerKey(pod.key, pod.containers[a].name)
  }

  function MaxRate(half: Half, before: map<string, Sample>, pod: PodSeen, n: nat, now: real): real
    requires n <= |pod.containers|
  {
    if n == 0 then 0.0
    else
      var k := ContainerKey(pod.key, pod.containers[n - 1].name);
      var r := NextRate(half, Get(before, k), pod.containers[n - 1].restartCount, now);
      var m := MaxRate(half, before, pod, n - 1, now);
      if r > m then r else m
  }

  /** The rate a pod is scored with, from the samples before the rebuild. */
  function PodRateFrom(half: Half, before: map<string, Sample>, pod: PodSeen, now: real): real {
    MaxRate(half, before, pod, |pod.containers|, now)
  }

  /** samples is `before` with the containers of the first n pods, and the first
      m of the next one, freshly observed. */
  ghost predicate Observed(half: Half, before: map<string, Sample>, pods: seq<PodSeen>, n: nat, m: nat, now: real,
                           samples: map<string, Sample>)
    requires n <= |pods| && (m > 0 ==> n < |pods| && m <= |pods[n].containers|)
  {
    && (forall i, a :: 0 <= i < |pods| && 0 <= a < |pods[i].containers| && (i < n || (i == n && a < m)) ==>
          var k := ContainerKey(pods[i].key, pods[i].containers[a].name);
          k in samples && samples[k] == NextSample(half, Get(before, k), pods[i].containers[a].restartCount, now))
    && (forall k :: (forall i, a :: 0 <= i < |pods| && 0 <= a < |pods[i].containers| && (i < n || (i == n && a < m)) ==>
                       k != ContainerKey(pods[i].key, pods[i].containers[a].name)) ==>
          Get(samples, k) == Get(before, k))
  }

  /** After a rebuild: one sample per live container, one rate per live pod. */
  ghost predicate Tracked(half: Half, before: map<string, Sample>, pods: seq<PodSeen>, now: real,
                          samples: map<string, Sample>, podRates: map<string, real>)
  {
    && (forall k :: k in samples <==> IsLiveContainer(pods, k))
    && (forall i, a :: 0 <= i < |pods| && 0 <= a < |pods[i].containers| ==>
          var k := ContainerKey(pods[i].key, pods[i].containers[a].name);
          k in samples && samples[k] == NextSample(half, Get(before, k), pods[i].containers[a].restartCount, now))
    && (forall k :: k in podRates <==> IsLivePod(pods, k))
    && (forall i :: 0 <= i < |pods| ==>
          pods[i].key in podRates && podRates[pods[i].key] == PodRateFrom(half, before, pods[i], now))
  }

  ghost predicate IsLivePod(pods: seq<PodSeen>, k: string) {
    exists i :: 0 <= i < |pods| && pods[i].key == k
  }

  ghost predicate IsLiveContainer(pods: seq<PodSeen>, k: string) {
    exists i :: 0 <= i < |pods| && IsContainerKey(pods[i], |pods[i].containers|, k)
  }

  class RestartTracker {
    var samples: map<string, Sample>
    var podRates: map<string, real>

    constructor ()
      ensures samples == map[] && podRates == map[]
    {
      samples, podRates := map[], map[];
    }

    method Observe(half: Half, key: string, count: int, now: real) returns (rate: real)
      modifies this`samples
      ensures samples == old(samples)[key := NextSample(half, Get(old(samples), key), count, now)]
      ensures rate == samples[key].rate
    {
      rate := 0.0;
      if key in samples {
        var prev := samples[key];
        var dt := now - prev.at;
        if count > prev.count && dt > 0.0 {
          rate := (count - prev.count) as real / dt;
        } else if count < prev.count {
          rate := 0.0;
        } else if dt > 0.0 {
          rate := prev.rate * half(dt);
          if rate < FLOOR { rate := 0.0; }
        } else {
          rate := prev.rate;
        }
      }
      assert rate == NextRate(half, Get(samples, key), count, now);
      samples := samples[key := Sample(count, now, rate)];
    }

    method SetPodRate(podKey: string, rate: real)
      modifies this`podRates
      ensures podRates == old(podRates)[podKey := rate]
    {
      podRates := podRates[podKey := rate];
    }

    /** Between rebuilds, a live pod's rate is the one the last rebuild scored it
        with, and any other pod's is 0. */
    method PodRate(podKey: string) returns (rate: real)
      ensures podKey in podRates ==> rate == podRates[podKey]
      ensures forall half, before, pods, now :: Tracked(half, before, pods, now, samples, podRates) ==>
        IsLastRate(half, before, pods, now, podKey, rate)
    {
      rate := if podKey in podRates then podRates[podKey] else 0.0;
      forall half, before, pods, now | Tracked(half, before, pods, now, samples, podRates)
        ensures IsLastRate(half, before, pods, now, podKey, rate)
      {
        LastRate(half, before, pods, now, samples, podRates, podKey);
      }
    }

    /** Deletes whatever is not alive, each map iterated over in an order of its own. */
    method Prune(livePods: set<string>, liveContainers: set<string>)
      modifies this
      ensures samples == map k | k in old(samples) && k in liveContainers :: old(samples)[k]
      ensures podRates == map k | k in old(podRates) && k in livePods :: old(podRates)[k]
    {
      PruneSamples(liveContainers);
      var rest := podRates.Keys;
      while rest != {}
        invariant rest <= podRates.Keys
        invariant samples == map k | k in old(samples) && k in liveContainers :: old(samples)[k]
        invariant podRates == map k | k in old(podRates) && (k in rest || k in livePods) :: old(podRates)[k]
        decreases |rest|
      {
        var k: string :| k in rest;
        if k !in livePods {
          podRates := podRates - {k};
        }
        rest := rest - {k};
      }
    }

    method PruneSamples(liveContainers: set<string>)
      modifies this`samples
      ensures samples == map k | k in old(samples) && k in liveContainers :: old(samples)[k]
    {
      var rest := samples.Keys;
      while rest != {}
        invariant rest <= samples.Keys
        invariant samples == map k | k in old(samples) && (k in rest || k in liveContainers) :: old(samples)[k]
        decreases |rest|
      {
        var k: string :| k in rest;
        if k !in liveContainers {
          samples := samples - {k};
        }
        rest := rest - {k};
      }
    }

    /** The rebuild's pass over one pod: observe every container, keep the largest rate. */
    method ObservePod(half: Half, ghost before: map<string, Sample>, pods: seq<PodSeen>, n: nat, now: real,
                      livePods: set<string>, liveContainers: set<string>)
      returns (podRate: real, livePods': set<string>, liveContainers': set<string>)
      requires KeysApart(pods) && n < |pods|
      requires Passing(half, before, pods, n, now, samples, podRates, livePods, liveContainers)
      modifies this
      ensures Passing(half, before, pods, n + 1, now, samples, podRates, livePods', liveContainers')
      ensures podRate == PodRateFrom(half, before, pods[n], now)
    {
      var pod := pods[n];
      var keys: set<string>;
      livePods' := livePods + {pod.key};
      podRate, keys := ObserveContainers(half, before, pods, n, now);
      liveContainers' := liveContainers + keys;
      ghost var was := podRates;
      SetPodRate(pod.key, podRate);
      PassingStep(half, before, pods, n, now, samples, was, podRates, livePods, liveContainers,
                  livePods', liveContainers', podRate, keys);
    }

    method ObserveContainers(half: Half, ghost before: map<string, Sample>, pods: seq<PodSeen>, n: nat, now: real)
      returns (podRate: real, keys: set<string>)
      requires KeysApart(pods) && n < |pods| && Observed(half, before, pods, n, 0, now, samples)
      modifies this`samples
      ensures Observed(half, before, pods, n, |pods[n].containers|, now, samples)
      ensures podRate == PodRateFrom(half, before, pods[n], now)
      ensures forall k :: k in keys <==> IsContainerKey(pods[n], |pods[n].containers|, k)
    {
      var pod := pods[n];
      podRate, keys := 0.0, {};
      for a := 0 to |pod.containers|
        invariant Observed(half, before, pods, n, a, now, samples)
        invariant podRate == MaxRate(half, before, pod, a, now)
        invariant forall k :: k in keys <==> IsContainerKey(pod, a, k)
      {
        var r := ObserveOne(half, before, pods, n, a, now);
        MaxRateStep(half, before, pod, a, now);
        ContainerKeysStep(pod, a, keys);
        keys := keys + {ContainerKey(pod.key, pod.containers[a].name)};
        if r > podRate {
          podRate := r;
        }
      }
    }

    method ObserveOne(half: Half, ghost before: map<string, Sample>, pods: seq<PodSeen>, n: nat, m: nat, now: real)
      returns (rate: real)
      requires KeysApart(pods) && n < |pods| && m < |pods[n].containers|
      requires Observed(half, before, pods, n, m, now, samples)
      modifies this`samples
      ensures Observed(half, before, pods, n, m + 1, now, samples)
      ensures rate == RateAt(half, before, pods[n], m, now)
    {
      var c := pods[n].containers[m];
      var k := ContainerKey(pods[n].key, c.name);
      NotYetObserved(half, before, pods, n, m, now, samples);
      ghost var was := samples;
      rate := Observe(half, k, c.restartCount, now);
      ObservedStep(half, before, pods, n, m, now, was, samples);
    }

    /** prune, once every pod has been observed. */
    method PruneAll(half: Half, ghost before: map<string, Sample>, pods: seq<PodSeen>, now: real,
                    livePods: set<string>, liveContainers: set<string>)
      requires KeysApart(pods) && Passing(half, before, pods, |pods|, now, samples, podRates, livePods, liveContainers)
      modifies this
      ensures Tracked(half, before, pods, now, samples, podRates)
    {
      ghost var was, rates := samples, podRates;
      Prune(livePods, liveContainers);
      PrunedIsTracked(half, before, pods, now, was, rates, livePods, liveContainers, samples, podRates);
    }
  }

  /** rate is what a rebuild that saw these pods scored the pod of this key with, or
      0 if it saw no such pod. */
  ghost predicate IsLastRate(half: Half, before: map<string, Sample>, pods: seq<PodSeen>, now: real, podKey: string,
                             rate: real) {
    && (forall i :: 0 <= i < |pods| && pods[i].key == podKey ==> rate == PodRateFrom(half, before, pods[i], now))
    && (!IsLivePod(pods, podKey) ==> rate == 0.0)
  }

  lemma LastRate(half: Half, before: map<string, Sample>, pods: seq<PodSeen>, now: real,
                 samples: map<string, Sample>, podRates: map<string, real>, podKey: string)
    requires Tracked(half, before, pods, now, samples, podRates)
    ensures IsLastRate(half, before, pods, now, podKey, if podKey in podRates then podRates[podKey] else 0.0)
  {
    assert podKey in podRates <==> IsLivePod(pods, podKey);
  }

  /** The pass over the pods after the first n of them. */
  ghost predicate Passing(half: Half, before: map<string, Sample>, pods: seq<PodSeen>, n: nat, now: real,
                          samples: map<string, Sample>, podRates: map<string, real>,
                          livePods: set<string>, liveContainers: set<string>)
    requires n <= |pods|
  {
    && Observed(half, before, pods, n, 0, now, samples)
    && (forall j :: 0 <= j < n ==>
          pods[j].key in podRates && podRates[pods[j].key] == PodRateFrom(half, before, pods[j], now))
    && (forall k :: k in livePods <==> exists j :: 0 <= j < n && pods[j].key == k)
    && (forall k :: k in liveContainers <==> exists j :: 0 <= j < n && IsContainerKey(pods[j], |pods[j].containers|, k))
  }

  lemma PassingStarts(half: Half, pods: seq<PodSeen>, now: real, samples: map<string, Sample>,
                      podRates: map<string, real>)
    ensures Passing(half, samples, pods, 0, now, samples, podRates, {}, {})
  {
  }

  lemma PassingStep(half: Half, before: map<string, Sample>, pods: seq<PodSeen>, n: nat, now: real,
                    samples: map<string, Sample>, was: map<string, real>, podRates: map<string, real>,
                    livePods: set<string>, liveContainers: set<string>,
                    livePods': set<string>, liveContainers': set<string>, rate: real, keys: set<string>)
    requires KeysApart(pods) && n < |pods|
    requires Observed(half, before, pods, n, |pods[n].containers|, now, samples)
    requires forall j :: 0 <= j < n ==>
      pods[j].key in was && was[pods[j].key] == PodRateFrom(half, before, pods[j], now)
    requires forall k :: k in livePods <==> exists j :: 0 <= j < n && pods[j].key == k
    requires forall k :: k in liveContainers <==>
               exists j :: 0 <= j < n && IsContainerKey(pods[j], |pods[j].containers|, k)
    requires podRates == was[pods[n].key := rate] && rate == PodRateFrom(half, before, pods[n], now)
    requires livePods' == livePods + {pods[n].key} && liveContainers' == liveContainers + keys
    requires forall k :: k in keys <==> IsContainerKey(pods[n], |pods[n].containers|, k)
    ensures Passing(half, before, pods, n + 1, now, samples, podRates, livePods', liveContainers')
  {
  }

  lemma MaxRateStep(half: Half, before: map<string, Sample>, pod: PodSeen, a: nat, now: real)
    requires a < |pod.containers|
    ensures var r, m := RateAt(half, before, pod, a, now), MaxRate(half, before, pod, a, now);
      MaxRate(half, before, pod, a + 1, now) == if r > m then r else m
  {
  }

  lemma ContainerKeysStep(pod: PodSeen, a: nat, keys: set<string>)
    requires a < |pod.containers| && forall k :: k in keys <==> IsContainerKey(pod, a, k)
    ensures forall k :: k in keys + {ContainerKey(pod.key, pod.containers[a].name)} <==> IsContainerKey(pod, a + 1, k)
  {
    var last := ContainerKey(pod.key, pod.containers[a].name);
    forall k ensures k in keys + {last} <==> IsContainerKey(pod, a + 1, k) {
      if IsContainerKey(pod, a, k) {
        var b :| 0 <= b < a && k == ContainerKey(pod.key, pod.containers[b].name);
      }
    }
  }

  lemma NotYetObserved(half: Half, before: map<string, Sample>, pods: seq<PodSeen>, n: nat, m: nat, now: real,
                       samples: map<string, Sample>)
    requires KeysApart(pods) && n < |pods| && m < |pods[n].containers|
    requires Observed(half, before, pods, n, m, now, samples)
    ensures var k := ContainerKey(pods[n].key, pods[n].containers[m].name); Get(samples, k) == Get(before, k)
  {
  }

  lemma ObservedStep(half: Half, before: map<string, Sample>, pods: seq<PodSeen>, n: nat, m: nat, now: real,
                     was: map<string, Sample>, samples: map<string, Sample>)
    requires KeysApart(pods) && n < |pods| && m < |pods[n].containers|
    requires Observed(half, before, pods, n, m, now, was)
    requires var c := pods[n].containers[m]; var k := ContainerKey(pods[n].key, c.name);
      samples == was[k := NextSample(half, Get(before, k), c.restartCount, now)]
    ensures Observed(half, before, pods, n, m + 1, now, samples)
  {
  }

  /** Pruning after every pod has been observed leaves the tracked state. */
  lemma PrunedIsTracked(half: Half, before: map<string, Sample>, pods: seq<PodSeen>, now: real,
                        was: map<string, Sample>, rates: map<string, real>,
                        livePods: set<string>, liveContainers: set<string>,
                        samples: map<string, Sample>, podRates: map<string, real>)
    requires KeysApart(pods) && Observed(half, before, pods, |pods|, 0, now, was)
    requires forall i :: 0 <= i < |pods| ==>
      pods[i].key in rates && rates[pods[i].key] == PodRateFrom(half, before, pods[i], now)
    requires forall k :: k in livePods <==> IsLivePod(pods, k)
    requires forall k :: k in liveContainers <==> IsLiveContainer(pods, k)
    requires samples == map k | k in was && k in liveContainers :: was[k]
    requires podRates == map k | k in rates && k in livePods :: rates[k]
    ensures Tracked(half, before, pods, now, samples, podRates)
  {
    forall i, a | 0 <= i < |pods| && 0 <= a < |pods[i].containers|
      ensures ContainerKey(pods[i].key, pods[i].containers[a].name) in liveContainers
    {
      assert IsContainerKey(pods[i], |pods[i].containers|, ContainerKey(pods[i].key, pods[i].containers[a].name));
    }
    forall i | 0 <= i < |pods| ensures pods[i].key in livePods { assert IsLivePod(pods, pods[i].key); }
    forall k ensures k in samples <==> IsLiveContainer(pods, k) {
      if IsLiveContainer(pods, k) {
        var i :| 0 <= i < |pods| && IsContainerKey(pods[i], |pods[i].containers|, k);
        var a :| 0 <= a < |pods[i].containers| && k == ContainerKey(pods[i].key, pods[i].containers[a].name);
      }
    }
    forall k ensures k in podRates <==> IsLivePod(pods, k) {
      if IsLivePod(pods, k) {
        var i :| 0 <= i < |pods| && pods[i].key == k;
      }
    }
  }

  /** The stored pod rate is the largest stored container rate, or 0. */
  lemma PodRateIsMaximum(half: Half, before: map<string, Sample>, pods: seq<PodSeen>, now: real,
                         samples: map<string, Sample>, podRates: map<string, real>, i: nat)
    requires Tracked(half, before, pods, now, samples, podRates) && i < |pods|
    ensures forall a :: 0 <= a < |pods[i].containers| ==>
      samples[ContainerKey(pods[i].key, pods[i].containers[a].name)].rate <= podRates[pods[i].key]
    ensures podRates[pods[i].key] >= 0.0
    ensures podRates[pods[i].key] == 0.0
            || exists a :: 0 <= a < |pods[i].containers| && podRates[pods[i].key]
                 == samples[ContainerKey(pods[i].key, pods[i].containers[a].name)].rate
  {
    var pod := pods[i];
    MaxRateIsMaximum(half, before, pod, |pod.containers|, now);
    forall a | 0 <= a < |pod.containers|
      ensures ContainerKey(pod.key, pod.containers[a].name) in samples
      ensures samples[ContainerKey(pod.key, pod.containers[a].name)].rate == RateAt(half, before, pod, a, now)
    {
    }
    if podRates[pod.key] != 0.0 {
      var a :| 0 <= a < |pod.containers| && RateAt(half, before, pod, a, now) == podRates[pod.key];
      assert samples[ContainerKey(pod.key, pod.containers[a].name)].rate == podRates[pod.key];
    }
  }

  function RateAt(half: Half, before: map<string, Sample>, pod: PodSeen, a: nat, now: real): real
    requires a < |pod.containers|
  {
    NextRate(half, Get(before, ContainerKey(pod.key, pod.containers[a].name)), pod.containers[a].restartCount, now)
  }

  lemma {:induction false} MaxRateIsMaximum(half: Half, before: map<string, Sample>, pod: PodSeen, n: nat, now: real)
    requires n <= |pod.containers|
    ensures MaxRate(half, before, pod, n, now) >= 0.0
    ensures forall a :: 0 <= a < n ==> RateAt(half, before, pod, a, now) <= MaxRate(half, before, pod, n, now)
    ensures MaxRate(half, before, pod, n, now) == 0.0
            || exists a :: 0 <= a < n && RateAt(half, before, pod, a, now) == MaxRate(half, before, pod, n, now)
  {
    if n > 0 {
      MaxRateIsMaximum(half, before, pod, n - 1, now);
      assert RateAt(half, before, pod, n - 1, now) <= MaxRate(half, before, pod, n, now);
    }
  }

  // ------------------------------------------------------------ rates over runs

  datatype Obs = Obs(count: int, at: real)

  function Replay(half: Half, s: Sample, obs: seq<Obs>): Sample {
    if obs == [] then s
    else
      var o := obs[|obs| - 1];
      NextSample(half, Some(Replay(half, s, obs[..|obs| - 1])), o.count, o.at)
  }

  /** Times never go back, from `from` on. */
  predicate InOrder(from: real, obs: seq<Obs>) {
    && (forall i :: 0 <= i < |obs| ==> from <= obs[i].at)
    && (forall i, j :: 0 <= i < j < |obs| ==> obs[i].at <= obs[j].at)
  }

  lemma DecayTwice(half: Half, r: real, a: real, b: real)
    requires IsHalfLife(half) && r >= 0.0 && a >= 0.0 && b > 0.0
    ensures Quietened(Quietened(r * half(a)) * half(b)) == Quietened(r * half(a + b))
    ensures r * half(a + b) <= r * half(a)
  {
    assert Multiplies(half, a, b) && IsFraction(half, a) && IsFraction(half, b);
    var x, h := r * half(a), half(b);
    assert x >= 0.0 by { Product(r, half(a)); }
    Reassociate(r, half(a), h);
    Shrinks(x, h);
  }

  lemma Product(x: real, y: real)
    requires x >= 0.0 && y >= 0.0
    ensures x * y >= 0.0
  {
  }

  lemma Reassociate(x: real, y: real, z: real)
    ensures x * (y * z) == (x * y) * z
  {
  }

  lemma Shrinks(x: real, h: real)
    requires x >= 0.0 && 0.0 < h <= 1.0
    ensures 0.0 <= x * h <= x
  {
    Product(x, 1.0 - h);
    Product(x, h);
    assert x * (1.0 - h) == x - x * h;
  }

  /** The rate after quiet time: as it was if none has passed. */
  function Decayed(half: Half, rate: real, elapsed: real): real {
    if elapsed > 0.0 then Quietened(rate * half(elapsed)) else rate
  }

  lemma DecayAgain(half: Half, r: real, a: real, b: real)
    requires IsHalfLife(half) && r >= 0.0 && a >= 0.0 && b >= 0.0
    ensures Decayed(half, Decayed(half, r, a), b) == Decayed(half, r, a + b)
  {
    if a > 0.0 && b > 0.0 {
      DecayTwice(half, r, a, b);
    }
  }

  lemma QuietStep(half: Half, prev: Sample, now: real)
    requires prev.at <= now
    ensures NextSample(half, Some(prev), prev.count, now)
            == Sample(prev.count, now, Decayed(half, prev.rate, now - prev.at))
  {
  }

  /** Quiet decay does not depend on how often the container is looked at. */
  lemma {:induction false} DecayIsSamplingBlind(half: Half, s: Sample, obs: seq<Obs>)
    requires IsHalfLife(half) && s.rate >= 0.0 && obs != [] && InOrder(s.at, obs)
    requires forall i :: 0 <= i < |obs| ==> obs[i].count == s.count
    ensures var last := obs[|obs| - 1];
      Replay(half, s, obs) == Sample(s.count, last.at, Decayed(half, s.rate, last.at - s.at))
    decreases |obs|
  {
    var init, last := obs[..|obs| - 1], obs[|obs| - 1];
    var prev := Replay(half, s, init);
    if init == [] {
      assert prev == s;
    } else {
      DecayIsSamplingBlind(half, s, init);
      var mid := obs[|obs| - 2];
      assert mid == init[|init| - 1] && s.at <= mid.at <= last.at;
      DecayAgain(half, s.rate, mid.at - s.at, last.at - mid.at);
      assert (mid.at - s.at) + (last.at - mid.at) == last.at - s.at;
    }
    QuietStep(half, prev, last.at);
  }

  /** Rates are never negative. */
  lemma RateNonNegative(half: Half, prev: Option<Sample>, count: int, now: real)
    requires IsHalfLife(half) && (prev.Some? ==> prev.value.rate >= 0.0)
    ensures NextRate(half, prev, count, now) >= 0.0
  {
    if prev.Some? {
      var dt := now - prev.value.at;
      if count > prev.value.count && dt > 0.0 {
        Quotient((count - prev.value.count) as real, dt);
      } else if dt > 0.0 {
        assert IsFraction(half, dt);
        Product(prev.value.rate, half(dt));
      }
    }
  }

  lemma Quotient(x: real, d: real)
    requires x >= 0.0 && d > 0.0
    ensures x / d >= 0.0 && x / d * d == x
  {
  }

  lemma {:induction false} ReplayNonNegative(half: Half, s: Sample, obs: seq<Obs>)
    requires IsHalfLife(half) && s.rate >= 0.0
    ensures Replay(half, s, obs).rate >= 0.0
  {
    if obs != [] {
      ReplayNonNegative(half, s, obs[..|obs| - 1]);
      var o := obs[|obs| - 1];
      RateNonNegative(half, Some(Replay(half, s, obs[..|obs| - 1])), o.count, o.at);
    }
  }

  /** A container's restart count and the time, as the n-th of a run of rebuilds sees them. */
  ghost predicate SeesIn(pods: seq<PodSeen>, k: string, count: int) {
    exists i, a :: 0 <= i < |pods| && 0 <= a < |pods[i].containers|
      && k == ContainerKey(pods[i].key, pods[i].containers[a].name) && count == pods[i].containers[a].restartCount
  }

  /** states are what a run of rebuilds leaves in the tracker, each starting from
      the samples of the one before. */
  ghost predicate TrackerRun(half: Half, states: seq<map<string, Sample>>, rates: seq<map<string, real>>,
                             seen: seq<seq<PodSeen>>, times: seq<real>)
  {
    && |states| == |seen| + 1 == |times| + 1 == |rates| + 1
    && forall n :: 0 <= n < |seen| ==> Tracked(half, states[n], seen[n], times[n], states[n + 1], rates[n])
  }

  lemma SampleAfter(half: Half, before: map<string, Sample>, pods: seq<PodSeen>, now: real,
                    samples: map<string, Sample>, rates: map<string, real>, k: string, count: int)
    requires Tracked(half, before, pods, now, samples, rates) && SeesIn(pods, k, count)
    ensures k in samples && samples[k] == NextSample(half, Get(before, k), count, now)
  {
    var i, a :| 0 <= i < |pods| && 0 <= a < |pods[i].containers|
      && k == ContainerKey(pods[i].key, pods[i].containers[a].name) && count == pods[i].containers[a].restartCount;
  }

  lemma TrackedStep(half: Half, states: seq<map<string, Sample>>, rates: seq<map<string, real>>,
                    seen: seq<seq<PodSeen>>, times: seq<real>, k: string, count: int, n: nat)
    requires TrackerRun(half, states, rates, seen, times) && n < |seen| && SeesIn(seen[n], k, count)
    ensures k in states[n + 1] && states[n + 1][k] == NextSample(half, Get(states[n], k), count, times[n])
  {
    SampleAfter(half, states[n], seen[n], times[n], states[n + 1], rates[n], k, count);
  }

  lemma ReplayStep(half: Half, s: Sample, obs: seq<Obs>, n: nat)
    requires n < |obs|
    ensures Replay(half, s, obs[..n + 1])
            == NextSample(half, Some(Replay(half, s, obs[..n])), obs[n].count, obs[n].at)
  {
    assert obs[..n + 1][..n] == obs[..n];
  }

  /** Over a run of rebuilds that all see a container, its stored sample is the
      replay of what they saw: so all laws of Replay speak of the tracker. */
  lemma {:induction false} TrackerReplays(half: Half, states: seq<map<string, Sample>>, rates: seq<map<string, real>>,
                                          seen: seq<seq<PodSeen>>, times: seq<real>, k: string, obs: seq<Obs>, n: nat)
    requires TrackerRun(half, states, rates, seen, times) && n <= |seen| == |obs| && k in states[0]
    requires forall m :: 0 <= m < |obs| ==> obs[m].at == times[m] && SeesIn(seen[m], k, obs[m].count)
    ensures k in states[n] && states[n][k] == Replay(half, states[0][k], obs[..n])
  {
    if n > 0 {
      TrackerReplays(half, states, rates, seen, times, k, obs, n - 1);
      TrackedStep(half, states, rates, seen, times, k, obs[n - 1].count, n - 1);
      ReplayStep(half, states[0][k], obs, n - 1);
    }
  }

  /** Rate times elapsed time, over the steps where the count rose. */
  function Area(half: Half, s: Sample, obs: seq<Obs>): real {
    if obs == [] then 0.0
    else
      var prev, now := Replay(half, s, obs[..|obs| - 1]), Replay(half, s, obs);
      Area(half, s, obs[..|obs| - 1]) + if now.count > prev.count then now.rate * (now.at - prev.at) else 0.0
  }

  /** The estimated rates account for every restart, no more and no fewer. */
  lemma {:induction false} AreaIsRestarts(half: Half, s: Sample, obs: seq<Obs>)
    requires obs != [] ==> s.at < obs[0].at && s.count <= obs[0].count
    requires forall i, j :: 0 <= i < j < |obs| ==> obs[i].at < obs[j].at && obs[i].count <= obs[j].count
    ensures Area(half, s, obs) == (Replay(half, s, obs).count - s.count) as real
    decreases |obs|
  {
    if obs != [] {
      var init := obs[..|obs| - 1];
      AreaIsRestarts(half, s, init);
      var prev, now := Replay(half, s, init), Replay(half, s, obs);
      assert init == [] || (prev.at == obs[|obs| - 2].at && prev.count == obs[|obs| - 2].count);
      if now.count > prev.count {
        Quotient((now.count - prev.count) as real, now.at - prev.at);
      }
    }
  }
}
