/** The class-validator decorators the DTOs use, as predicates on one
    property of a parsed body. A property is `None` when it is undefined. */
module Validation {
  import opened Results
  import opened Json

  type Property = Option<Value>

  /** Neither undefined nor null: what `@IsOptional()` tests before it lets
      the other decorators run. */
  predicate IsDefined(p: Property) {
    p.Some? && p.value != Null
  }

  /** `@IsNotEmpty()`: not undefined, not null and not the empty string. */
  predicate IsNotEmpty(p: Property) {
    IsDefined(p) && p.value != Str("")
  }

  /** `@IsString()`. */
  predicate IsString(p: Property) {
    p.Some? && p.value.Str?
  }

  /** `@IsNumber()`: a JSON number (JSON has no NaN or Infinity). */
  predicate IsNumber(p: Property) {
    p.Some? && p.value.Number?
  }

  /** `@IsPositive()`: a number strictly above zero. */
  predicate IsPositive(p: Property) {
    p.Some? && p.value.Number? && p.value.n > 0.0
  }

  /** `@IsEnum(E)`: one of the string values of the enum. */
  predicate IsEnum(p: Property, values: set<string>) {
    p.Some? && p.value.Str? && p.value.s in values
  }

  /** `@IsArray()`. */
  predicate IsArray(p: Property) {
    p.Some? && p.value.Array?
  }

  /** `@MinLength(n)`: a string of at least `n` characters. */
  predicate MinLength(p: Property, n: nat) {
    IsString(p) && |p.value.s| >= n
  }

  /** `@IsEmail()`: a string accepted by the library's e-mail recogniser,
      which is a parameter of the model. */
  predicate IsEmail(p: Property, isEmail: string -> bool) {
    IsString(p) && isEmail(p.value.s)
  }

  /** `@IsOptional()` in front of `constraints`: an undefined or null
      property passes whatever the other decorators say. */
  predicate Optional(p: Property, constraints: bool) {
    !IsDefined(p) || constraints
  }

  /** `@IsNotEmpty() @IsString()`. */
  predicate NonEmptyString(p: Property) {
    IsNotEmpty(p) && IsString(p)
  }

  /** `@IsNumber() @IsPositive()`. */
  predicate PositiveNumber(p: Property) {
    IsNumber(p) && IsPositive(p)
  }

  function StringOf(p: Property): string
    requires IsString(p)
  {
    p.value.s
  }

  function NumberOf(p: Property): real
    requires IsNumber(p)
  {
    p.value.n
  }
}
