/** The two pieces of engine state the pooled and paused objects touch: a
    game object's active flags and the global time scale. */
module Engine {

  /** A GameObject.  `activeSelf` is its own flag, the one SetActive
      writes; `parentActive` says whether every ancestor is active, which
      the model holds constant. */
  class GameObject {
    var activeSelf: bool
    const parentActive: bool

    constructor (activeSelf: bool, parentActive: bool)
      ensures this.activeSelf == activeSelf && this.parentActive == parentActive
    {
      this.activeSelf := activeSelf;
      this.parentActive := parentActive;
    }

    /** activeInHierarchy: the object and all its ancestors are active. */
    predicate ActiveInHierarchy()
      reads this
    {
      activeSelf && parentActive
    }

    method SetActive(value: bool)
      modifies this`activeSelf
      ensures activeSelf == value
    {
      activeSelf := value;
    }
  }

  /** Time.timeScale. */
  class EngineTime {
    var timeScale: real

    constructor ()
      ensures timeScale == 1.0
    {
      timeScale := 1.0;
    }
  }
}
