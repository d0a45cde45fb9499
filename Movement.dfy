/** The stamina rules of the player's movement (PlayerController): the float
    stamina that sprinting drains and rest regenerates, the sprint decision
    and the stamina-gated jump. Frame time, the ground check and the keys
    arrive as parameters; forces, mouse look, head bob and footsteps are left
    out. */
module Movement {
  import opened Numeric

  class PlayerController {
    const maxStamina: real
    var currentStamina: real
    const staminaRegenRate: real
    const sprintStaminaCost: real
    const jumpStaminaCost: real
    const attackStaminaCost: real
    const minStaminaToSprint: real
    var isGrounded: bool
    var isSprinting: bool
    var canSprint: bool
    /** Cleared by GameManager.TriggerVictory; Unity stops calling Update then. */
    var enabled: bool

    /** The field initialisers (Inspector values as defaults) followed by
        Start, which fills stamina. */
    constructor (maxStamina: real := 100.0, staminaRegenRate: real := 15.0,
                 sprintStaminaCost: real := 20.0, jumpStaminaCost: real := 15.0,
                 attackStaminaCost: real := 10.0, minStaminaToSprint: real := 10.0)
      ensures this.maxStamina == maxStamina && currentStamina == maxStamina
      ensures this.staminaRegenRate == staminaRegenRate && this.sprintStaminaCost == sprintStaminaCost
      ensures this.jumpStaminaCost == jumpStaminaCost && this.attackStaminaCost == attackStaminaCost
      ensures this.minStaminaToSprint == minStaminaToSprint
      ensures !isGrounded && !isSprinting && !canSprint && enabled
      ensures maxStamina >= 0.0 ==> Valid()
    {
      this.maxStamina, currentStamina := maxStamina, maxStamina;
      this.staminaRegenRate, this.sprintStaminaCost := staminaRegenRate, sprintStaminaCost;
      this.jumpStaminaCost, this.attackStaminaCost := jumpStaminaCost, attackStaminaCost;
      this.minStaminaToSprint := minStaminaToSprint;
      isGrounded, isSprinting, canSprint, enabled := false, false, false, true;
    }

    /** Stamina within [0, maxStamina]. */
    predicate Valid()
      reads this
    {
      0.0 <= currentStamina <= maxStamina
    }

    /** Rates and costs that are not negative, as the Inspector values are. */
    predicate RatesNonNegative()
      reads this
    {
      staminaRegenRate >= 0.0 && sprintStaminaCost >= 0.0 && jumpStaminaCost >= 0.0
      && attackStaminaCost >= 0.0
    }

    /** The stamina HandleStamina leaves after `dt` seconds, from the sprint
        and ground flags of the previous frame: drained while sprinting on the
        ground, regenerated while not sprinting, held while sprinting in the air. */
    function StaminaAfterFrame(dt: real): real
      reads this
    {
      if isSprinting && isGrounded then MaxReal(currentStamina - sprintStaminaCost * dt, 0.0)
      else if !isSprinting then MinReal(currentStamina + staminaRegenRate * dt, maxStamina)
      else currentStamina
    }

    /** One frame of the controller: nothing while disabled or while a UI panel
        is open; otherwise stamina, then movement, then the jump, which needs
        the stamina left after this frame's regeneration or drain. */
    method Update(dt: real, uiOpen: bool, wantsToSprint: bool, grounded: bool, jumpPressed: bool)
      returns (jumped: bool)
      modifies this`currentStamina, this`canSprint, this`isGrounded, this`isSprinting
      ensures !enabled || uiOpen ==>
                !jumped && currentStamina == old(currentStamina) && canSprint == old(canSprint)
                && isGrounded == old(isGrounded) && isSprinting == old(isSprinting)
      ensures enabled && !uiOpen ==>
                canSprint == (old(currentStamina) >= minStaminaToSprint) && isGrounded == grounded
                && isSprinting == (wantsToSprint && canSprint && grounded)
      ensures enabled && !uiOpen ==>
                var s := old(StaminaAfterFrame(dt));
                jumped == (jumpPressed && grounded && s >= jumpStaminaCost)
                && currentStamina == (if jumped then s - jumpStaminaCost else s)
      ensures old(Valid()) && RatesNonNegative() && dt >= 0.0 ==> Valid()
    {
      jumped := false;
      if !enabled || uiOpen {
        return;
      }
      HandleStamina(dt);
      HandleMovement(wantsToSprint, grounded);
      jumped := HandleJump(jumpPressed);
    }

    /** Sprint eligibility, then drain while sprinting on the ground, regenerate
        while not sprinting, and hold while sprinting in the air. The flags used
        are those of the previous frame's movement step. */
    method HandleStamina(dt: real)
      modifies this`canSprint, this`currentStamina
      ensures canSprint == (old(currentStamina) >= minStaminaToSprint)
      ensures currentStamina == old(StaminaAfterFrame(dt))
      ensures isSprinting && isGrounded ==>
                currentStamina == MaxReal(old(currentStamina) - sprintStaminaCost * dt, 0.0)
      ensures !isSprinting ==>
                currentStamina == MinReal(old(currentStamina) + staminaRegenRate * dt, maxStamina)
      ensures isSprinting && !isGrounded ==> currentStamina == old(currentStamina)
      ensures old(Valid()) && RatesNonNegative() && dt >= 0.0 ==> Valid()
    {
      canSprint := currentStamina >= minStaminaToSprint;
      if isSprinting && isGrounded {
        currentStamina := currentStamina - sprintStaminaCost * dt;
        currentStamina := MaxReal(currentStamina, 0.0);
      } else if !isSprinting {
        currentStamina := currentStamina + staminaRegenRate * dt;
        currentStamina := MinReal(currentStamina, maxStamina);
      }
    }

    /** Spends stamina, floored at zero. */
    method UseStamina(amount: real)
      modifies this`currentStamina
      ensures currentStamina == MaxReal(old(currentStamina) - amount, 0.0)
      ensures old(Valid()) && amount >= 0.0 ==> Valid()
    {
      currentStamina := currentStamina - amount;
      currentStamina := MaxReal(currentStamina, 0.0);
    }

    predicate CanUseStamina(amount: real)
      reads this
    {
      currentStamina >= amount
    }

    /** The sprint decision: sprinting only with the key held, enough stamina
        and ground underfoot (`grounded` is the ground raycast's answer). */
    method HandleMovement(wantsToSprint: bool, grounded: bool)
      modifies this`isGrounded, this`isSprinting
      ensures isGrounded == grounded
      ensures isSprinting == (wantsToSprint && canSprint && grounded)
    {
      isGrounded := grounded;
      isSprinting := wantsToSprint && canSprint && isGrounded;
      if wantsToSprint && !canSprint {
        isSprinting := false;
      }
    }

    /** The jump gate: on the ground with enough stamina, the jump happens and
        costs jumpStaminaCost. */
    method HandleJump(jumpPressed: bool) returns (jumped: bool)
      modifies this`currentStamina
      ensures jumped == (jumpPressed && isGrounded && old(CanUseStamina(jumpStaminaCost)))
      ensures currentStamina == if jumped then old(currentStamina) - jumpStaminaCost else old(currentStamina)
      ensures old(Valid()) && jumpStaminaCost >= 0.0 ==> Valid()
    {
      jumped := false;
      if jumpPressed && isGrounded && CanUseStamina(jumpStaminaCost) {
        UseStamina(jumpStaminaCost);
        jumped := true;
      }
    }
  }
}
