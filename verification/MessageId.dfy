/** The bytes a gossip message id is a digest of: `prefix` in `src/main.rs`. */
module MessageId {
  import opened Messages
  import opened Layout

  const MESSAGE_DOMAIN_VALID_SNAPPY: Bytes4 := [1, 0, 0, 0]

  /** A byte string whose length fits the 64-bit `usize`. */
  type Text = t: Bytes | |t| < U64_BOUND

  function Preimage(domain: Bytes4, topic: Text, data: Bytes): Bytes {
    domain + U64Bytes(|topic|) + topic + data
  }

  /** The domain, the length of the topic in eight bytes, lowest first, the topic, and the data. */
  predicate LaidOut(b: Bytes, domain: Bytes4, topic: Text, data: Bytes) {
    && |b| == 12 + |topic| + |data| && b[..4] == domain && SpellsU64(b[4..12], |topic|)
    && b[12..12 + |topic|] == topic && b[12 + |topic|..] == data
  }

  lemma PreimageLayout(domain: Bytes4, topic: Text, data: Bytes)
    ensures LaidOut(Preimage(domain, topic, data), domain, topic, data)
  {
    U64Layout(|topic|);
    assert Preimage(domain, topic, data)[4..12] == U64Bytes(|topic|);
  }

  method Prefix(domain: Bytes4, topic: Text, data: Bytes) returns (vec: Bytes)
    ensures vec == Preimage(domain, topic, data) && LaidOut(vec, domain, topic, data)
  {
    PreimageLayout(domain, topic, data);
    var topicLenBytes := U64Bytes(|topic|);
    vec := [];
    vec := vec + domain;
    vec := vec + topicLenBytes;
    vec := vec + topic;
    vec := vec + data;
  }

  lemma PreimageParts(domain: Bytes4, topic: Text, data: Bytes)
    ensures var p, d := Preimage(domain, topic, data), |domain|;
            && |p| == d + 8 + |topic| + |data|
            && p[d..d + 8] == U64Bytes(|topic|) && p[d + 8..d + 8 + |topic|] == topic && p[d + 8 + |topic|..] == data
  {
  }

  /** Different messages have different preimages under one domain: neither topic nor data can borrow
      from the other. */
  lemma PreimageInjective(domain: Bytes4, topic1: Text, data1: Bytes, topic2: Text, data2: Bytes)
    requires Preimage(domain, topic1, data1) == Preimage(domain, topic2, data2)
    ensures topic1 == topic2 && data1 == data2
  {
    PreimageParts(domain, topic1, data1);
    PreimageParts(domain, topic2, data2);
    U64RoundTrip(|topic1|);
    U64RoundTrip(|topic2|);
  }

  /** Messages of different domains never share a preimage either. */
  lemma DomainsApart(domain1: Bytes4, topic1: Text, data1: Bytes, domain2: Bytes4, topic2: Text, data2: Bytes)
    requires Preimage(domain1, topic1, data1) == Preimage(domain2, topic2, data2)
    ensures domain1 == domain2
  {
    assert Preimage(domain1, topic1, data1)[..4] == domain1;
    assert Preimage(domain2, topic2, data2)[..4] == domain2;
  }

  const ID_SIZE := 20

  /** `gossip_message_id`: the first twenty bytes of the digest of these bytes, for a digest of at least
      that many. */
  method GossipMessageId(digest: Bytes -> Bytes, topic: Text, data: Bytes) returns (id: Bytes, ghost preimage: Bytes)
    requires |digest(Preimage(MESSAGE_DOMAIN_VALID_SNAPPY, topic, data))| >= ID_SIZE
    ensures |id| == 20 && id <= digest(preimage) && LaidOut(preimage, [1, 0, 0, 0], topic, data)
  {
    var vec := Prefix(MESSAGE_DOMAIN_VALID_SNAPPY, topic, data);
    preimage := vec;
    id := digest(vec)[..ID_SIZE];
  }
}
