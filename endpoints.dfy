/** The request URLs the collector builds by string concatenation. */
module Endpoints {

  /** `URLS.initDatasetIncrement`. */
  const InitPath: string := "/ds/api/dataset/init/"

  /** `URLS.addDatasetIncrement`. */
  const AppendPath: string := "/ds/api/dataset/append/"

  /** `url + URLS.initDatasetIncrement + key`: where a collector is created. */
  function InitUrl(url: string, key: string): string {
    url + InitPath + key
  }

  /** `url + URLS.addDatasetIncrement + key + "/" + datasetKey`: where every
      batch of one collector goes. */
  function AppendUrl(url: string, key: string, datasetKey: string): string {
    url + AppendPath + key + "/" + datasetKey
  }

  lemma SlashAt(k: string, rest: string)
    ensures (k + "/" + rest)[|k|] == '/'
  {
  }

  /** Two strings that agree up to the first '/' of each. */
  lemma {:induction false} SlashSplit(k1: string, i1: string, k2: string, i2: string)
    requires '/' !in k1 && '/' !in k2
    requires k1 + "/" + i1 == k2 + "/" + i2
    ensures k1 == k2 && i1 == i2
  {
    var s := k1 + "/" + i1;
    if |k1| < |k2| {
      SlashAt(k1, i1);
      assert false;
    } else if |k2| < |k1| {
      SlashAt(k2, i2);
      assert false;
    }
    assert k1 == s[..|k1|] == k2;
    assert i1 == s[|k1| + 1..] == i2;
  }

  /** For an API key without '/', the batch URL of a server names exactly one
      key and dataset: no two collectors post their batches to the same URL. */
  lemma AppendUrlInjective(url: string, k1: string, i1: string, k2: string, i2: string)
    requires '/' !in k1 && '/' !in k2
    requires AppendUrl(url, k1, i1) == AppendUrl(url, k2, i2)
    ensures k1 == k2 && i1 == i2
  {
    var pre := url + AppendPath;
    assert AppendUrl(url, k1, i1) == pre + (k1 + "/" + i1);
    assert AppendUrl(url, k2, i2) == pre + (k2 + "/" + i2);
    assert k1 + "/" + i1 == AppendUrl(url, k1, i1)[|pre|..];
    SlashSplit(k1, i1, k2, i2);
  }

  /** The init URL and the batch URLs of one server never coincide. */
  lemma InitAppendDistinct(url: string, key: string, k: string, id: string)
    ensures InitUrl(url, key) != AppendUrl(url, k, id)
  {
    var n := |url| + 16;
    assert InitUrl(url, key)[n] == 'i';
    assert AppendUrl(url, k, id)[n] == 'a';
  }
}
