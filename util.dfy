/** `BuildUtil.kt`: comparisons of the running SDK level with two API levels. */
module BuildUtil {

  /** `Build.VERSION_CODES.S`. */
  const S: int := 31
  /** `Build.VERSION_CODES.TIRAMISU`. */
  const Tiramisu: int := 33

  predicate DeviceAtLeastTiramisu(sdkInt: int) { sdkInt >= Tiramisu }

  predicate DeviceAtLeastS(sdkInt: int) { sdkInt >= S }

  lemma LevelsAreTheApiNumbers(sdkInt: int)
    ensures DeviceAtLeastS(sdkInt) <==> sdkInt >= 31
    ensures DeviceAtLeastTiramisu(sdkInt) <==> sdkInt >= 33
  {
  }

  lemma TiramisuImpliesS(sdkInt: int)
    ensures DeviceAtLeastTiramisu(sdkInt) ==> DeviceAtLeastS(sdkInt)
  {
  }

  /** Both checks stay true on every later SDK level. */
  lemma Monotone(lower: int, higher: int)
    requires lower <= higher
    ensures DeviceAtLeastS(lower) ==> DeviceAtLeastS(higher)
    ensures DeviceAtLeastTiramisu(lower) ==> DeviceAtLeastTiramisu(higher)
  {
  }
}

/** `PermissionUtil.kt`: the BLUETOOTH_CONNECT runtime permission gate. */
module PermissionUtil {
  import BuildUtil

  /** `canBluetoothConnect`: from S on, whether BLUETOOTH_CONNECT is granted; before S, always. */
  predicate CanBluetoothConnect(sdkInt: int, connectGranted: bool) {
    if BuildUtil.DeviceAtLeastS(sdkInt) then connectGranted else true
  }

  lemma BelowSAlwaysAllowed(sdkInt: int, connectGranted: bool)
    requires sdkInt < BuildUtil.S
    ensures CanBluetoothConnect(sdkInt, connectGranted)
  {
  }

  lemma FromSEqualsGranted(sdkInt: int, connectGranted: bool)
    requires sdkInt >= BuildUtil.S
    ensures CanBluetoothConnect(sdkInt, connectGranted) == connectGranted
  {
  }

  /** Denied exactly when the device is at S or later and the permission is not granted. */
  lemma DeniedIff(sdkInt: int, connectGranted: bool)
    ensures !CanBluetoothConnect(sdkInt, connectGranted) <==> sdkInt >= 31 && !connectGranted
  {
  }

  lemma GrantedAlwaysAllowed(sdkInt: int)
    ensures CanBluetoothConnect(sdkInt, true)
  {
  }
}
