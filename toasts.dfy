/**
 * The notifications ("toasts") raised by the two forms. A toast has a title,
 * a description and, for errors, the destructive variant.
 */
module Toasts {
  datatype Toast = Toast(title: string, description: string, destructive: bool)

  /** Raised by both forms when one of their inputs is empty. */
  const FillAllFields := Toast("Error", "Please fill in all fields", true)

  /** Raised by the food item form after the new item is stored. */
  const FoodItemAdded := Toast("Success", "Food item added successfully!", false)

  /** Raised by the registration form when the two passwords differ. */
  const PasswordsDoNotMatch := Toast("Error", "Passwords do not match", true)

  /** Raised by the registration form when the account service accepts the account. */
  const AccountCreated := Toast("Success", "Account created successfully!", false)

  /** Raised by the registration form when the account service refuses the account. */
  const EmailAlreadyExists := Toast("Error", "Email already exists", true)
}
