/** The summary printed for one topic-model run, derived from its topic
    table: outlier documents, the number of real topics, and the topics
    listed as the top ones. Topic -1 is the outlier topic. */
module TopicSummary {

  /** One row of the topic table: topic id, document count, topic name. */
  datatype TopicRow = TopicRow(topic: int, count: nat, name: string)

  const OutlierTopic := -1

  /** How many leading rows of the table are read for the top-topic list. */
  const ListedRows := 4

  predicate IsOutlier(row: TopicRow) {
    row.topic == OutlierTopic
  }

  predicate HasOutlier(table: seq<TopicRow>) {
    exists i :: 0 <= i < |table| && IsOutlier(table[i])
  }

  /** Row `i` is an outlier row and no earlier row is. */
  predicate IsFirstOutlier(table: seq<TopicRow>, i: int) {
    0 <= i < |table| && IsOutlier(table[i]) &&
    forall k :: 0 <= k < i ==> !IsOutlier(table[k])
  }

  /** No topic id appears twice, as in a table built from a fitted model. */
  predicate UniqueTopics(table: seq<TopicRow>) {
    forall i, j :: 0 <= i < j < |table| ==> table[i].topic != table[j].topic
  }

  /** Count of the first outlier row, 0 when the table has none. */
  function OutlierCount(table: seq<TopicRow>): (r: nat)
    ensures !HasOutlier(table) ==> r == 0
    ensures HasOutlier(table) ==> exists i :: IsFirstOutlier(table, i) && r == table[i].count
    decreases |table|
  {
    if |table| == 0 then 0
    else if IsOutlier(table[0]) then
      assert IsFirstOutlier(table, 0);
      table[0].count
    else
      var tail := table[1..];
      assert HasOutlier(table) ==> HasOutlier(tail) by {
        if HasOutlier(table) {
          var i :| 0 <= i < |table| && IsOutlier(table[i]);
          assert tail[i - 1] == table[i];
        }
      }
      var r := OutlierCount(tail);
      assert HasOutlier(table) ==> exists i :: IsFirstOutlier(table, i) && r == table[i].count by {
        if HasOutlier(table) {
          var i :| IsFirstOutlier(tail, i) && r == tail[i].count;
          assert IsFirstOutlier(table, i + 1) by {
            forall k | 0 <= k < i + 1
              ensures !IsOutlier(table[k])
            {
              if k > 0 {
                assert table[k] == tail[k - 1];
              }
            }
          }
        }
      }
      r
  }

  /** The rows that are real topics, in table order. */
  function RealTopics(table: seq<TopicRow>): (r: seq<TopicRow>)
    ensures |r| <= |table|
    ensures forall x :: x in r <==> x in table && !IsOutlier(x)
    decreases |table|
  {
    if |table| == 0 then []
    else (if IsOutlier(table[0]) then [] else [table[0]]) + RealTopics(table[1..])
  }

  lemma {:induction false} RealTopicsAppend(a: seq<TopicRow>, b: seq<TopicRow>)
    ensures RealTopics(a + b) == RealTopics(a) + RealTopics(b)
    decreases |a|
  {
    if |a| == 0 {
      assert a + b == b;
    } else {
      assert (a + b)[0] == a[0];
      assert (a + b)[1..] == a[1..] + b;
      RealTopicsAppend(a[1..], b);
    }
  }

  /** Number of real topics: one less than the table length when an outlier
      row is present, the table length otherwise. */
  function RealTopicCount(table: seq<TopicRow>): (r: nat)
    ensures r <= |table|
    ensures HasOutlier(table) ==> r + 1 == |table|
    ensures !HasOutlier(table) ==> r == |table|
  {
    if HasOutlier(table) then |table| - 1 else |table|
  }

  /** With distinct topic ids, at most one row is an outlier, so the real
      topics number exactly `RealTopicCount`. */
  lemma {:induction false} RealTopicCountCountsRealTopics(table: seq<TopicRow>)
    requires UniqueTopics(table)
    ensures RealTopicCount(table) == |RealTopics(table)|
    decreases |table|
  {
    if |table| != 0 {
      var tail := table[1..];
      assert UniqueTopics(tail);
      RealTopicCountCountsRealTopics(tail);
      if IsOutlier(table[0]) {
        assert forall i :: 0 <= i < |tail| ==> tail[i].topic != table[0].topic;
      } else {
        assert HasOutlier(table) <==> HasOutlier(tail) by {
          if HasOutlier(table) {
            var i :| 0 <= i < |table| && IsOutlier(table[i]);
            assert tail[i - 1] == table[i];
          }
        }
      }
    }
  }

  /** Number of rows the top-topic list is read from. */
  function HeadLength(table: seq<TopicRow>): (n: nat)
    ensures n <= |table| && n <= ListedRows
    ensures n == ListedRows || n == |table|
  {
    if |table| < ListedRows then |table| else ListedRows
  }

  /** The topics listed as top ones: the first four rows, outlier skipped.
      They are the leading real topics of the whole table, in table order;
      with distinct ids their number is the head length, less one when the
      outlier row is among the head rows. */
  function TopTopics(table: seq<TopicRow>): (r: seq<TopicRow>)
    ensures |r| <= ListedRows
    ensures forall x :: x in r ==> !IsOutlier(x) && x in table
    ensures |r| <= |RealTopics(table)| && r == RealTopics(table)[..|r|]
    ensures UniqueTopics(table) ==>
      |r| == HeadLength(table) - (if HasOutlier(table[..HeadLength(table)]) then 1 else 0)
  {
    var n := HeadLength(table);
    var head := table[..n];
    assert table == head + table[n..];
    RealTopicsAppend(head, table[n..]);
    assert UniqueTopics(table) ==> RealTopicCount(head) == |RealTopics(head)| by {
      if UniqueTopics(table) {
        assert UniqueTopics(head);
        RealTopicCountCountsRealTopics(head);
      }
    }
    RealTopics(head)
  }

  /** With distinct topic ids, the outlier count is the count on the one
      outlier row wherever it sits. */
  lemma OutlierCountOfUniqueRow(table: seq<TopicRow>, i: nat)
    requires UniqueTopics(table) && i < |table| && IsOutlier(table[i])
    ensures OutlierCount(table) == table[i].count
  {
    assert HasOutlier(table);
    var r := OutlierCount(table);
    var j :| IsFirstOutlier(table, j) && r == table[j].count;
  }

  /** What is reported for one run. */
  datatype Summary = Summary(realTopicCount: nat, outlierCount: nat, topTopics: seq<TopicRow>)

  function Summarize(table: seq<TopicRow>): (s: Summary)
    ensures s.realTopicCount + (if HasOutlier(table) then 1 else 0) == |table|
    ensures !HasOutlier(table) ==> s.outlierCount == 0
    ensures HasOutlier(table) ==> exists i :: IsFirstOutlier(table, i) && s.outlierCount == table[i].count
    ensures |s.topTopics| <= ListedRows && |s.topTopics| <= |RealTopics(table)|
    ensures s.topTopics == RealTopics(table)[..|s.topTopics|]
    ensures UniqueTopics(table) ==>
      |s.topTopics| == HeadLength(table) - (if HasOutlier(table[..HeadLength(table)]) then 1 else 0)
  {
    Summary(RealTopicCount(table), OutlierCount(table), TopTopics(table))
  }
}
