/**
 * The records the ticket desk reads, as the pages hold them after loading
 * them from the hosted entity service. Only the fields the core reads are
 * kept. Optional fields (`null` or missing in the service's JSON) are
 * `Option`s.
 */
module Entities {
  import opened Wrappers

  /** The four ticket statuses the desk knows. The `status` field itself is free text. */
  const Open: string := "open"
  const InProgress: string := "in_progress"
  const Resolved: string := "resolved"
  const Closed: string := "closed"

  const AdminRole: string := "admin"
  const UserRole: string := "user"

  datatype Ticket = Ticket(
    id: string,
    title: string,
    description: string,
    status: string,
    priority: string,
    category_id: string,
    requester_email: string,
    assigned_to: Option<string>)

  datatype NotificationPreferences = NotificationPreferences(
    email_notifications: bool,
    ticket_updates: bool,
    weekly_summary: bool)

  datatype User = User(
    id: string,
    email: string,
    full_name: Option<string>,
    role: string,
    department: Option<string>,
    phone: Option<string>,
    last_login: Option<string>,
    notification_preferences: Option<NotificationPreferences>)

  datatype Category = Category(
    id: string,
    name: string,
    description: Option<string>,
    color: string,
    is_active: bool)

  /** One message handed to the email integration. */
  datatype Email = Email(to: string, subject: string, body: string)
}
