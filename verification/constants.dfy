/** Fixed enumerations, thresholds, HTTP statuses and messages shared by the backend. */
module Constants {
  /** Water sources accepted by the usage schema. */
  datatype Source = Borewell | Canal | Rain | Well | OtherSource

  /** Crop categories accepted by the usage schema. */
  datatype Crop = Rice | Wheat | Sugarcane | Cotton | Maize | Vegetables | Fruits | Pulses | Oilseeds | OtherCrop

  /** The lower-case string each crop is stored as. */
  function CropName(c: Crop): string {
    match c
    case Rice => "rice"
    case Wheat => "wheat"
    case Sugarcane => "sugarcane"
    case Cotton => "cotton"
    case Maize => "maize"
    case Vegetables => "vegetables"
    case Fruits => "fruits"
    case Pulses => "pulses"
    case Oilseeds => "oilseeds"
    case OtherCrop => "other"
  }

  const RoleFarmer: string := "farmer"
  const RoleAdmin: string := "admin"

  // Alert thresholds, in liters
  const DailyWarning: int := 5000
  const DailyCritical: int := 10000
  const WeeklyWarning: int := 30000

  const StatusOk: int := 200
  const StatusCreated: int := 201
  const StatusBadRequest: int := 400
  const StatusUnauthorized: int := 401
  const StatusForbidden: int := 403
  const StatusConflict: int := 409
  const StatusServerError: int := 500

  const InvalidCredentials: string := "Invalid email or password"
  const UserExists: string := "User with this email already exists"
  const UnauthorizedAccess: string := "Unauthorized access"
  const AccessForbidden: string := "Access forbidden"
  const InvalidToken: string := "Invalid or expired token"
  const ServerError: string := "Internal server error"
}

/** Request-body values as JSON parsing yields them, and JavaScript truthiness. */
module Json {
  import opened Wrappers

  /** `Composite` stands for any object or array. */
  datatype Value = Null | Bool(b: bool) | Num(n: real) | Str(s: string) | Composite

  /** `!!body.field`, where an absent field is `undefined`. */
  predicate Truthy(v: Option<Value>) {
    match v
    case None => false
    case Some(Null) => false
    case Some(Bool(b)) => b
    case Some(Num(n)) => n != 0.0
    case Some(Str(s)) => s != ""
    case Some(Composite) => true
  }

  /** Truthiness of an optional string field. */
  predicate Present(v: Option<string>) {
    v.Some? && v.value != ""
  }
}

/** The claims a signed token carries: user id, role and, if set, expiry in seconds. */
module Jwt {
  import opened Wrappers

  datatype Claims = Claims(id: string, role: string, exp: Option<int>)
}
