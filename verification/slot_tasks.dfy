/** The fork-join pattern of the pass compiler: a vector is sized up front, and every child
    task writes its result into its own pre-computed slot. The task scheduler's concurrency is
    modelled as running the task list front to back; because the tasks are pure and their
    slots are distinct, the order does not matter (ProcessChildTasksOrderIndependent). */
module SlotTasks {
  import opened Outcomes

  /** A child task: the slot it writes and the value it computes. */
  datatype SlotTask<T> = SlotTask(slot: nat, value: T)

  /** A write through operator[] past the end of the vector (undefined behaviour in C++). */
  datatype SlotError = SlotOutOfRange(slot: nat, size: nat)

  ghost predicate DistinctSlots<T>(tasks: seq<SlotTask<T>>)
  {
    forall a, b :: 0 <= a < b < |tasks| ==> tasks[a].slot != tasks[b].slot
  }

  ghost predicate SlotsBelow<T>(tasks: seq<SlotTask<T>>, size: nat)
  {
    forall a :: 0 <= a < |tasks| ==> tasks[a].slot < size
  }

  ghost predicate Written<T>(tasks: seq<SlotTask<T>>, i: nat)
  {
    exists a :: 0 <= a < |tasks| && tasks[a].slot == i
  }

  /** Runs the tasks one after another, each storing its value in its slot of `slots`. The
      first task whose slot lies outside the vector stops the run. */
  function ProcessChildTasks<T>(slots: seq<T>, tasks: seq<SlotTask<T>>): (r: Result<seq<T>, SlotError>)
    ensures r.Ok? <==> SlotsBelow(tasks, |slots|)
    ensures r.Ok? ==> |r.value| == |slots|
    ensures r.Ok? && DistinctSlots(tasks) ==>
      forall a :: 0 <= a < |tasks| ==> r.value[tasks[a].slot] == tasks[a].value
    ensures r.Ok? ==> forall i :: 0 <= i < |slots| && !Written(tasks, i) ==> r.value[i] == slots[i]
    ensures r.Err? ==> r.error.size == |slots| && r.error.slot >= |slots|
    decreases |tasks|
  {
    if |tasks| == 0 then Ok(slots)
    else if tasks[0].slot < |slots| then
      var r := ProcessChildTasks(slots[tasks[0].slot := tasks[0].value], tasks[1..]);
      assert forall a :: 1 <= a < |tasks| ==> tasks[a] == tasks[1..][a - 1];
      r
    else Err(SlotOutOfRange(tasks[0].slot, |slots|))
  }

  /** Two task lists holding the same tasks, each with distinct slots, produce the same vector:
      the sequential model stands for every interleaving the scheduler may choose. */
  lemma ProcessChildTasksOrderIndependent<T>(slots: seq<T>, t1: seq<SlotTask<T>>, t2: seq<SlotTask<T>>)
    requires forall t :: t in t1 <==> t in t2
    requires DistinctSlots(t1) && DistinctSlots(t2)
    ensures ProcessChildTasks(slots, t1).Ok? == ProcessChildTasks(slots, t2).Ok?
    ensures ProcessChildTasks(slots, t1).Ok? ==> ProcessChildTasks(slots, t1) == ProcessChildTasks(slots, t2)
  {
    var r1, r2 := ProcessChildTasks(slots, t1), ProcessChildTasks(slots, t2);
    if SlotsBelow(t1, |slots|) {
      forall b | 0 <= b < |t2| ensures t2[b].slot < |slots| {
        assert t2[b] in t1;
      }
    }
    if SlotsBelow(t2, |slots|) {
      forall a | 0 <= a < |t1| ensures t1[a].slot < |slots| {
        assert t1[a] in t2;
      }
    }
    if r1.Ok? {
      var v1, v2 := r1.value, r2.value;
      forall i | 0 <= i < |slots| ensures v1[i] == v2[i] {
        if Written(t1, i) {
          var a :| 0 <= a < |t1| && t1[a].slot == i;
          assert t1[a] in t2;
          var b :| 0 <= b < |t2| && t2[b] == t1[a];
        } else {
          forall b | 0 <= b < |t2| ensures t2[b].slot != i {
            assert t2[b] in t1;
          }
        }
      }
      assert v1 == v2;
    }
  }

  /** The tasks a counter hands out when it is incremented once per pushed task: the a-th
      task writes slot a. */
  function Numbered<T>(values: seq<T>): (tasks: seq<SlotTask<T>>)
    ensures |tasks| == |values|
    ensures forall a :: 0 <= a < |tasks| ==> tasks[a].slot == a && tasks[a].value == values[a]
  {
    seq(|values|, a requires 0 <= a < |values| => SlotTask(a, values[a]))
  }

  /** The run stops at the first task whose slot is out of range, and reports that slot. */
  lemma {:induction false} FirstOutOfRange<T>(slots: seq<T>, tasks: seq<SlotTask<T>>, k: nat)
    requires k < |tasks| && tasks[k].slot >= |slots|
    requires forall a :: 0 <= a < k ==> tasks[a].slot < |slots|
    ensures ProcessChildTasks(slots, tasks) == Err(SlotOutOfRange(tasks[k].slot, |slots|))
    decreases k
  {
    if k > 0 {
      var rest := tasks[1..];
      assert forall a :: 0 <= a < k - 1 ==> rest[a] == tasks[a + 1];
      FirstOutOfRange(slots[tasks[0].slot := tasks[0].value], rest, k - 1);
    }
  }

  /** Numbered tasks fill a vector of at least their number of slots front to back, leaving
      the rest as it was; with more tasks than slots the run stops at slot |slots|. */
  lemma NumberedFill<T>(slots: seq<T>, values: seq<T>)
    ensures |values| <= |slots| ==>
      ProcessChildTasks(slots, Numbered(values)) == Ok(values + slots[|values|..])
    ensures |values| > |slots| ==>
      ProcessChildTasks(slots, Numbered(values)) == Err(SlotOutOfRange(|slots|, |slots|))
  {
    if |values| <= |slots| {
      NumberedFillInRange(slots, values);
    } else {
      FirstOutOfRange(slots, Numbered(values), |slots|);
    }
  }

  lemma NumberedFillInRange<T>(slots: seq<T>, values: seq<T>)
    requires |values| <= |slots|
    ensures ProcessChildTasks(slots, Numbered(values)) == Ok(values + slots[|values|..])
  {
    var tasks := Numbered(values);
    assert DistinctSlots(tasks);
    assert SlotsBelow(tasks, |slots|);
    var r := ProcessChildTasks(slots, tasks);
    var expected := values + slots[|values|..];
    forall i | 0 <= i < |slots| ensures r.value[i] == expected[i] {
      if i < |values| {
        assert r.value[tasks[i].slot] == tasks[i].value;
      } else {
        assert !Written(tasks, i);
      }
    }
    assert r.value == expected;
  }

  /** Numbered tasks write every slot of a vector of their own size exactly once. */
  lemma NumberedSlotsExact<T>(values: seq<T>)
    ensures DistinctSlots(Numbered(values))
    ensures SlotsBelow(Numbered(values), |values|)
    ensures forall i :: 0 <= i < |values| ==> Written(Numbered(values), i)
  {
    var tasks := Numbered(values);
    forall i | 0 <= i < |values| ensures Written(tasks, i) {
      assert tasks[i].slot == i;
    }
  }
}
