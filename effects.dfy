/**
 * What playback does to the world outside: the e-paper display's
 * prepare/display/sleep calls, the waits between steps and the save file.
 * The display is observed only as a trace of events.
 */
module Effects {
  import opened Wrappers
  import opened JsonValues

  /** A decoded picture ready for the display; its content is not modelled. */
  datatype Image = Image(id: nat)

  datatype Event =
    | Prepare
    | Display(image: Image)
    | Sleep
    | Wait(seconds: int)
    | Save(record: Json)
    | ClearSave

  /**
   * `max(wait - elapsed, 0)`: the pause after a step that took `elapsed`
   * seconds. It is never negative, the step and pause together last at
   * least `wait`, and the pause never stretches a step beyond `wait`.
   */
  function Delay(wait: int, elapsed: nat): (d: int)
    ensures d >= 0
    ensures elapsed + d >= wait
    ensures d == 0 || elapsed + d == wait
    ensures wait >= 0 ==> d <= wait
  {
    if wait - elapsed > 0 then wait - elapsed else 0
  }

  /** The records written by the Save events of a trace, in order. */
  function Saves(t: seq<Event>): (r: seq<Json>)
    ensures |r| <= |t|
  {
    if t == [] then []
    else Saves(t[..|t| - 1]) + (if t[|t| - 1].Save? then [t[|t| - 1].record] else [])
  }

  /** The images a trace puts on the display, in order. */
  function Shown(t: seq<Event>): (r: seq<Image>)
    ensures |r| <= |t|
  {
    if t == [] then []
    else Shown(t[..|t| - 1]) + (if t[|t| - 1].Display? then [t[|t| - 1].image] else [])
  }

  /** The record of a trace's last Save event, which is what the save file holds after it; `None` when nothing was saved. */
  function LastSave(t: seq<Event>): Option<Json>
  {
    var s := Saves(t);
    if s == [] then None else Some(s[|s| - 1])
  }

  /** One more event adds its payload, if it is a save, to what a trace saves. */
  lemma SavesSnoc(t: seq<Event>, e: Event)
    ensures Saves(t + [e]) == Saves(t) + if e.Save? then [e.record] else []
  {
    assert (t + [e])[..|t|] == t;
  }

  /** One more event adds its image, if it is a display, to what a trace shows. */
  lemma ShownSnoc(t: seq<Event>, e: Event)
    ensures Shown(t + [e]) == Shown(t) + if e.Display? then [e.image] else []
  {
    assert (t + [e])[..|t|] == t;
  }

  /** What a trace saves is what its two halves save, in order. */
  lemma {:induction false} SavesAppend(a: seq<Event>, b: seq<Event>)
    ensures Saves(a + b) == Saves(a) + Saves(b)
    decreases |b|
  {
    if b == [] {
      assert a + b == a;
    } else {
      var b' := b[..|b| - 1];
      assert (a + b)[..|a + b| - 1] == a + b';
      SavesAppend(a, b');
    }
  }

  /** What a trace shows is what its two halves show, in order. */
  lemma {:induction false} ShownAppend(a: seq<Event>, b: seq<Event>)
    ensures Shown(a + b) == Shown(a) + Shown(b)
    decreases |b|
  {
    if b == [] {
      assert a + b == a;
    } else {
      var b' := b[..|b| - 1];
      assert (a + b)[..|a + b| - 1] == a + b';
      ShownAppend(a, b');
    }
  }

  /** The images among the step results, in order. */
  function Present(images: seq<Option<Image>>): seq<Image>
    decreases |images|
  {
    if images == [] then []
    else
      var n := |images| - 1;
      Present(images[..n]) + (if images[n].Some? then [images[n].value] else [])
  }

  /** Exactly the images that were obtained are present, and there are no more of them than results. */
  lemma {:induction false} PresentMembers(images: seq<Option<Image>>)
    ensures |Present(images)| <= |images|
    ensures forall x :: x in Present(images) <==> Some(x) in images
    decreases |images|
  {
    if images != [] {
      var n := |images| - 1;
      PresentMembers(images[..n]);
      assert images == images[..n] + [images[n]];
    }
  }

  lemma PresentSnoc(images: seq<Option<Image>>, x: Option<Image>)
    ensures Present(images + [x]) == Present(images) + if x.Some? then [x.value] else []
  {
    assert (images + [x])[..|images|] == images;
  }

  /**
   * Regroups the payloads of a trace prefix, the payloads already gathered
   * and one step's payload. The step lemmas use it so that the solver does
   * not have to find the regrouping among the many sequence terms of a trace.
   */
  lemma AppendAssoc<T>(a: seq<T>, b: seq<T>, c: seq<T>)
    ensures a + b + c == a + (b + c)
  {
  }

  /** The display device together with the one save file. */
  class Io {
    ghost var trace: seq<Event>
    var saveFile: Option<Json>

    constructor (saved: Option<Json>)
      ensures trace == [] && saveFile == saved
    {
      trace := [];
      saveFile := saved;
    }

    method Prepare()
      modifies this
      ensures trace == old(trace) + [Event.Prepare] && saveFile == old(saveFile)
    {
      trace := trace + [Event.Prepare];
    }

    method Display(image: Image)
      modifies this
      ensures trace == old(trace) + [Event.Display(image)] && saveFile == old(saveFile)
    {
      trace := trace + [Event.Display(image)];
    }

    method Sleep()
      modifies this
      ensures trace == old(trace) + [Event.Sleep] && saveFile == old(saveFile)
    {
      trace := trace + [Event.Sleep];
    }

    /** `time.sleep(seconds)`. */
    method Wait(seconds: int)
      modifies this
      ensures trace == old(trace) + [Event.Wait(seconds)] && saveFile == old(saveFile)
    {
      trace := trace + [Event.Wait(seconds)];
    }

    /** Overwrites the save file with a record (`json.dump`). */
    method WriteSave(record: Json)
      modifies this
      ensures trace == old(trace) + [Save(record)] && saveFile == Some(record)
    {
      trace := trace + [Save(record)];
      saveFile := Some(record);
    }

    /** `Path.unlink()`: fails, changing nothing, when there is no save file. */
    method RemoveSave() returns (removed: bool)
      modifies this
      ensures removed == old(saveFile).Some?
      ensures saveFile == None
      ensures trace == old(trace) + (if removed then [ClearSave] else [])
    {
      removed := saveFile.Some?;
      if removed {
        trace := trace + [ClearSave];
        saveFile := None;
      }
    }
  }
}
