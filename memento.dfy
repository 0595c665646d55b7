/** Snapshots of a shape's dimensions, kept on a history stack for undo. */
module Memento {
  import opened Wrappers

  /** A snapshot of the originator's dimensions. It is a value, so nothing done to the
      originator afterwards can alter it. */
  datatype Momento = Momento(height: int, width: int)

  /** The object whose state is saved and restored. */
  class Originator {
    var height: int
    var width: int

    constructor (h: int, w: int)
      ensures height == h && width == w
    {
      height := h;
      width := w;
    }

    /** `setHeight` changes the height only. */
    method SetHeight(h: int)
      modifies this
      ensures height == h && width == old(width)
    {
      height := h;
    }

    /** `setWidth` changes the width only. */
    method SetWidth(w: int)
      modifies this
      ensures width == w && height == old(height)
    {
      width := w;
    }

    /** `createMomento` captures the current dimensions. */
    method CreateMomento() returns (m: Momento)
      ensures m.height == height && m.width == width
    {
      m := Momento(height, width);
    }

    /** `restoreMomento` overwrites both dimensions with the snapshot's. */
    method RestoreMomento(m: Momento)
      modifies this
      ensures height == m.height && width == m.width
    {
      height := m.height;
      width := m.width;
    }
  }

  /** The history of snapshots; the most recent is the last element. */
  class CareTaker {
    var history: seq<Momento>

    constructor ()
      ensures history == []
    {
      history := [];
    }

    /** `addMomento` pushes a snapshot. */
    method AddMomento(m: Momento)
      modifies this
      ensures history == old(history) + [m]
    {
      history := history + [m];
    }

    /** `undo` pops and returns the most recent snapshot, or returns NULL (`None`) and
        leaves the history empty when there is none. */
    method Undo() returns (m: Option<Momento>)
      modifies this
      ensures old(history) == [] ==> m == None && history == []
      ensures old(history) != [] ==>
        && m == Some(old(history)[|old(history)| - 1])
        && history == old(history)[..|old(history)| - 1]
    {
      if history == [] {
        return None;
      }
      m := Some(history[|history| - 1]);
      history := history[..|history| - 1];
    }
  }

  /** Restoring a snapshot taken earlier returns the originator to the captured state,
      whatever was changed in between. */
  method RestoreRoundTrip(originator: Originator, h: int, w: int)
    modifies originator
    ensures originator.height == old(originator.height) && originator.width == old(originator.width)
  {
    var snapshot := originator.CreateMomento();
    originator.SetHeight(h);
    originator.SetWidth(w);
    originator.RestoreMomento(snapshot);
  }

  /** The demonstration: (25, 15), then (15, 25), then (50, 50); two undo-and-restore
      steps go back to (15, 25) and then to (25, 15). */
  method Demo() returns (states: seq<(int, int)>)
    ensures states == [(25, 15), (15, 25), (50, 50), (15, 25), (25, 15)]
  {
    var careTaker := new CareTaker();
    var originator := new Originator(25, 15);
    states := [(originator.height, originator.width)];
    var snapshot1 := originator.CreateMomento();
    careTaker.AddMomento(snapshot1);
    originator.SetHeight(15);
    originator.SetWidth(25);
    states := states + [(originator.height, originator.width)];
    var snapshot2 := originator.CreateMomento();
    careTaker.AddMomento(snapshot2);
    originator.SetHeight(50);
    originator.SetWidth(50);
    states := states + [(originator.height, originator.width)];
    var restore1 := careTaker.Undo();
    originator.RestoreMomento(restore1.value);
    states := states + [(originator.height, originator.width)];
    var restore2 := careTaker.Undo();
    originator.RestoreMomento(restore2.value);
    states := states + [(originator.height, originator.width)];
  }
}
