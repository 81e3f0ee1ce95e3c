/**
  Choosing the processor that handles dragging an object from the catalogue.
  The proxy forwards to the factory of the current editor mode, the 2D
  factory or the 3D factory; a factory picks the processor from the object's
  flags and its type.
*/
module DragProcessorFactories {
  import opened Wrappers
  import opened ObjectModels

  /** The processors `DiContainer.Resolve` can hand out. */
  datatype ProcessorKind =
    | HoleProviderProcessor
    | FreeShapeProcessor2D
    | StandardProcessor2D
    | StandardProcessor3D

  /** The notification the 3D factory shows for an object it refuses. */
  const CannotAddIn3D := "Невозможно добавить в режиме 3D"

  /** `ObjectDragProcessor2DFactory.Create`: never `null`. */
  function Create2D(d: ObjectData): (k: ProcessorKind)
    ensures k == HoleProviderProcessor <==> HoleProvider in d.flags
    ensures k == FreeShapeProcessor2D <==> HoleProvider !in d.flags && d.freeShapeType
    ensures k == StandardProcessor2D <==> HoleProvider !in d.flags && !d.freeShapeType
  {
    if HoleProvider in d.flags then HoleProviderProcessor
    else if d.freeShapeType then FreeShapeProcessor2D
    else StandardProcessor2D
  }

  /** The choice `ObjectDragProcessor3DFactory.Create` makes: `None` for an object with a hole or a free shape. */
  function Select3D(d: ObjectData): (r: Option<ProcessorKind>)
    ensures r.None? <==> HoleProvider in d.flags || FreeShape in d.flags
    ensures r.Some? ==> r.value == StandardProcessor3D
  {
    if HoleProvider in d.flags || FreeShape in d.flags then None
    else Some(StandardProcessor3D)
  }

  /** The 3D factory; `notices` records what it shows through the notification controller. */
  class Factory3D {
    ghost var notices: seq<string>

    constructor ()
      ensures notices == []
    {
      notices := [];
    }

    /** `Create`: a refused object gets one notification and `null`. */
    method Create(m: ObjectModel) returns (r: Option<ProcessorKind>)
      modifies this
      ensures r == Select3D(m.data)
      ensures notices == old(notices) + (if r.None? then [CannotAddIn3D] else [])
    {
      if HoleProvider in m.data.flags || FreeShape in m.data.flags {
        notices := notices + [CannotAddIn3D];
        return None;
      }
      return Some(StandardProcessor3D);
    }
  }

  /** A factory the proxy can forward to. */
  datatype Subject = Plan2DFactory | Scene3DFactory(factory: Factory3D)

  /** The factories `Create` may notify through when forwarding to `s`. */
  function Notifiers(s: Option<Subject>): set<object>
  {
    if s.Some? && s.value.Scene3DFactory? then {s.value.factory} else {}
  }

  /** `ObjectDragProcessorFactoryProxy`. */
  class FactoryProxy {
    var subject: Option<Subject>

    constructor ()
      ensures subject == None
    {
      subject := None;
    }

    /** `SetSubject`. */
    method SetSubject(s: Subject)
      modifies this
      ensures subject == Some(s)
    {
      subject := Some(s);
    }

    /** `Create`: `null` without a subject, otherwise exactly what the subject returns. */
    method Create(m: ObjectModel) returns (r: Option<ProcessorKind>)
      modifies Notifiers(subject)
      ensures subject.None? ==> r.None?
      ensures subject == Some(Plan2DFactory) ==> r == Some(Create2D(m.data))
      ensures subject.Some? && subject.value.Scene3DFactory? ==>
                r == Select3D(m.data) &&
                subject.value.factory.notices ==
                  old(subject.value.factory.notices) + (if r.None? then [CannotAddIn3D] else [])
    {
      match subject {
        case None => r := None;
        case Some(Plan2DFactory) => r := Some(Create2D(m.data));
        case Some(Scene3DFactory(f)) => r := f.Create(m);
      }
    }
  }
}
