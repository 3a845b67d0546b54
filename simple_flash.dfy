/**
 * SimpleFlash.cs: makes a sprite flicker by alternating its renderer's
 * material between a flash material and its base material, guarded so that
 * only one flash runs at a time.  The waits between assignments are elided:
 * a flash is the sequence of material assignments it makes.
 */
module Flashing {
  import opened Wrappers

  datatype Material = Material(id: nat)

  /** A `SpriteRenderer`: its current material and every material assigned to it, in order. */
  class SpriteRenderer {
    var material: Option<Material>
    var applied: seq<Option<Material>>

    constructor (material: Option<Material>)
      ensures this.material == material && applied == []
    {
      this.material := material;
      applied := [];
    }

    /** `spriteRenderer.material = m`. */
    method SetMaterial(m: Option<Material>)
      modifies this
      ensures material == m && applied == old(applied) + [m]
    {
      material := m;
      applied := applied + [m];
    }
  }

  /** The materials a flash of `n` flashes assigns: flash then base, `n` times. */
  function FlashSequence(flash: Option<Material>, base: Option<Material>, n: int): (r: seq<Option<Material>>)
    ensures |r| == if n <= 0 then 0 else 2 * n
    ensures forall k :: 0 <= k < |r| ==> r[k] == if k % 2 == 0 then flash else base
    decreases n
  {
    if n <= 0 then [] else FlashSequence(flash, base, n - 1) + [flash, base]
  }

  /** A flash of at least one flash leaves the base material on the renderer. */
  lemma FlashEndsOnBase(flash: Option<Material>, base: Option<Material>, n: int)
    requires n >= 1
    ensures FlashSequence(flash, base, n)[2 * n - 1] == base
  {
  }

  class SimpleFlash {
    var spriteRenderer: SpriteRenderer?
    const flashMaterial: Option<Material>
    const flashAmount: int
    var baseMaterial: Option<Material>
    /** `coroutine != null`: a flash has been started and has not cleared the handle. */
    var running: bool

    constructor (spriteRenderer: SpriteRenderer?, flashMaterial: Option<Material>, flashAmount: int)
      ensures this.spriteRenderer == spriteRenderer && this.flashMaterial == flashMaterial
      ensures this.flashAmount == flashAmount && baseMaterial == None && !running
    {
      this.spriteRenderer := spriteRenderer;
      this.flashMaterial, this.flashAmount := flashMaterial, flashAmount;
      baseMaterial := None;
      running := false;
    }

    /**
     * `Start`: falls back to the object's own renderer (`own`, none when it has
     * none) only when no renderer is assigned, and captures the base material
     * only when a renderer exists.
     */
    method Start(own: SpriteRenderer?)
      modifies this
      ensures spriteRenderer == if old(spriteRenderer) == null then own else old(spriteRenderer)
      ensures spriteRenderer != null ==> baseMaterial == spriteRenderer.material
      ensures spriteRenderer == null ==> baseMaterial == old(baseMaterial)
      ensures running == old(running)
    {
      if spriteRenderer == null {
        if own != null {
          spriteRenderer := own;
        }
      }
      if spriteRenderer != null {
        baseMaterial := spriteRenderer.material;
      }
    }

    /**
     * The `Flash` coroutine run to its end.  `waited` tells whether it reached
     * a wait, that is, whether it outlived the `StartCoroutine` call.
     */
    method Flash() returns (waited: bool)
      modifies this, spriteRenderer
      ensures spriteRenderer == old(spriteRenderer) && baseMaterial == old(baseMaterial)
      ensures old(spriteRenderer) == null ==> !waited && unchanged(this)
      ensures spriteRenderer != null ==> waited == (flashAmount >= 1) && !running
      ensures spriteRenderer != null ==>
        spriteRenderer.applied == old(spriteRenderer.applied) + FlashSequence(flashMaterial, baseMaterial, flashAmount)
      ensures spriteRenderer != null && flashAmount >= 1 ==> spriteRenderer.material == baseMaterial
      ensures spriteRenderer != null && flashAmount < 1 ==> spriteRenderer.material == old(spriteRenderer.material)
    {
      var renderer := spriteRenderer;
      if renderer == null {
        return false;
      }
      var i := 0;
      while i < flashAmount
        invariant 0 <= i <= if flashAmount <= 0 then 0 else flashAmount
        invariant renderer.applied == old(renderer.applied) + FlashSequence(flashMaterial, baseMaterial, i)
        invariant i >= 1 ==> renderer.material == baseMaterial
        invariant i == 0 ==> renderer.material == old(renderer.material)
        invariant spriteRenderer == renderer && baseMaterial == old(baseMaterial) && running == old(running)
      {
        renderer.SetMaterial(flashMaterial);
        renderer.SetMaterial(baseMaterial);
        i := i + 1;
      }
      running := false;
      waited := flashAmount >= 1;
    }

    /**
     * Starts a flash unless one is running.  A flash that never waits (no
     * renderer, or no flashes) ends inside `StartCoroutine`, whose handle is
     * stored afterwards, so the guard then stays closed.
     */
    method PlayFlash()
      modifies this, spriteRenderer
      ensures old(running) ==> unchanged(this) && (spriteRenderer != null ==> unchanged(spriteRenderer))
      ensures spriteRenderer == old(spriteRenderer) && baseMaterial == old(baseMaterial)
      ensures !old(running) && spriteRenderer != null ==>
        spriteRenderer.applied == old(spriteRenderer.applied) + FlashSequence(flashMaterial, baseMaterial, flashAmount)
      ensures !old(running) ==> (running <==> spriteRenderer == null || flashAmount < 1)
    {
      if !running {
        var waited := Flash();
        if !waited {
          running := true;
        }
      }
    }
  }
}
